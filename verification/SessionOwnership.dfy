/** Who owns a pooled connection. The session refines a small machine in which a connection is dialed
    by a process, handed to the backend map, taken out of it, and given back to the pool. */
module SessionOwnership {
  import opened Common
  import opened Session

  /** The session as far as connections are concerned. */
  datatype Pool = Pool(held: seq<Option<nat>>, dialed: seq<string>, backends: map<string, nat>,
                       returned: seq<nat>, unhealthy: set<nat>)

  datatype Move =
    | Idle
    | Grow
    | Dial(pid: nat, server: string)
    | Unmap(pid: nat, server: string)
    | Enter(pid: nat, server: string)
    | GiveBack(pid: nat)
    | Mark(conn: nat)

  /** The connection a process holds between taking it and passing it on. */
  function HeldBy(p: Proc): Option<nat> {
    match p
    case Evicting(_, _, conn) => Some(conn)
    case Rejecting(_, _, conn) => Some(conn)
    case Installing(_, _, conn) => Some(conn)
    case Yielding(_, _, conn, _) => Some(conn)
    case Returning(conn, _) => Some(conn)
    case _ => None
  }

  function View(s: State): Pool {
    Pool(seq(|s.procs|, i requires 0 <= i < |s.procs| => HeldBy(s.procs[i])), s.dialed, s.backends, s.returned,
         s.unhealthy)
  }

  /** When a move can happen. */
  predicate CanMove(p: Pool, m: Move) {
    match m
    case Dial(pid, _) => pid < |p.held| && p.held[pid].None?
    case Unmap(pid, server) => pid < |p.held| && p.held[pid].None? && server in p.backends
    case Enter(pid, server) =>
      && pid < |p.held| && p.held[pid].Some? && server !in p.backends
      && p.held[pid].value < |p.dialed| && p.dialed[p.held[pid].value] == server
    case GiveBack(pid) => pid < |p.held| && p.held[pid].Some?
    case _ => true
  }

  function Moved(p: Pool, m: Move): Pool
    requires CanMove(p, m)
  {
    match m
    case Idle => p
    case Grow => p.(held := p.held + [None])
    case Dial(pid, server) => p.(held := p.held[pid := Some(|p.dialed|)], dialed := p.dialed + [server])
    case Unmap(pid, server) => p.(held := p.held[pid := Some(p.backends[server])], backends := p.backends - {server})
    case Enter(pid, server) => p.(held := p.held[pid := None], backends := p.backends[server := p.held[pid].value])
    case GiveBack(pid) =>
      p.(held := p.held[pid := None], returned := p.returned + [p.held[pid].value],
         unhealthy := p.unhealthy + {p.held[pid].value})
    case Mark(conn) => p.(unhealthy := p.unhealthy + {conn})
  }

  // ---------------------------------------------------------------- the invariant of the small machine

  ghost predicate Mapped(p: Pool, conn: nat) {
    conn < |p.dialed| && p.dialed[conn] in p.backends && p.backends[p.dialed[conn]] == conn
  }

  ghost predicate IsHeld(p: Pool, conn: nat) {
    exists i :: 0 <= i < |p.held| && p.held[i] == Some(conn)
  }

  /** Connections are mapped only under the server they were dialed for; no connection has two
      holders, is returned twice, or is in two of the three places; none is lost. */
  ghost predicate Owned(p: Pool) {
    && (forall server :: server in p.backends ==>
          Mapped(p, p.backends[server]) && p.dialed[p.backends[server]] == server)
    && (forall i, j :: 0 <= i < j < |p.held| && p.held[i].Some? ==> p.held[i] != p.held[j])
    && (forall i :: 0 <= i < |p.held| && p.held[i].Some? ==>
          p.held[i].value < |p.dialed| && !Mapped(p, p.held[i].value) && p.held[i].value !in p.returned)
    && (forall conn :: conn in p.returned ==> conn < |p.dialed| && !Mapped(p, conn) && conn in p.unhealthy)
    && (forall i, j :: 0 <= i < j < |p.returned| ==> p.returned[i] != p.returned[j])
    && (forall conn: nat :: conn < |p.dialed| ==> IsHeld(p, conn) || Mapped(p, conn) || conn in p.returned)
  }

  lemma DialOwned(p: Pool, pid: nat, server: string)
    requires Owned(p) && CanMove(p, Dial(pid, server))
    ensures Owned(Moved(p, Dial(pid, server)))
  {
    var q := Moved(p, Dial(pid, server));
    assert q.held[pid] == Some(|p.dialed|);
    forall conn: nat | conn < |p.dialed|
      ensures Mapped(q, conn) <==> Mapped(p, conn)
      ensures IsHeld(p, conn) ==> IsHeld(q, conn)
    {
      HolderKept(p, q, conn, pid);
    }
    forall server' | server' in q.backends
      ensures Mapped(q, q.backends[server']) && q.dialed[q.backends[server']] == server'
    {
      assert Mapped(p, p.backends[server']);
    }
  }

  /** Other processes keep what they hold when one slot changes. */
  lemma HolderKept(p: Pool, q: Pool, conn: nat, pid: nat)
    requires |q.held| >= |p.held| && pid < |p.held|
    requires forall i :: 0 <= i < |p.held| && i != pid ==> q.held[i] == p.held[i]
    ensures IsHeld(p, conn) && p.held[pid] != Some(conn) ==> IsHeld(q, conn)
  {
    if IsHeld(p, conn) && p.held[pid] != Some(conn) {
      var i :| 0 <= i < |p.held| && p.held[i] == Some(conn);
      assert q.held[i] == Some(conn);
    }
  }

  lemma UnmapOwned(p: Pool, pid: nat, server: string)
    requires Owned(p) && CanMove(p, Unmap(pid, server))
    ensures Owned(Moved(p, Unmap(pid, server)))
  {
    var q := Moved(p, Unmap(pid, server));
    var c := p.backends[server];
    assert Mapped(p, c) && q.held[pid] == Some(c);
    forall conn: nat
      ensures Mapped(q, conn) <==> Mapped(p, conn) && conn != c
      ensures IsHeld(p, conn) ==> IsHeld(q, conn)
    {
      HolderKept(p, q, conn, pid);
    }
    assert IsHeld(q, c);
    forall server' | server' in q.backends
      ensures Mapped(q, q.backends[server']) && q.dialed[q.backends[server']] == server'
    {
      assert Mapped(p, p.backends[server']);
    }
  }

  lemma EnterOwned(p: Pool, pid: nat, server: string)
    requires Owned(p) && CanMove(p, Enter(pid, server))
    ensures Owned(Moved(p, Enter(pid, server)))
  {
    var q := Moved(p, Enter(pid, server));
    var c := p.held[pid].value;
    forall conn: nat
      ensures Mapped(q, conn) <==> Mapped(p, conn) || conn == c
      ensures IsHeld(p, conn) && conn != c ==> IsHeld(q, conn)
    {
      HolderKept(p, q, conn, pid);
    }
    forall server' | server' in q.backends
      ensures Mapped(q, q.backends[server']) && q.dialed[q.backends[server']] == server'
    {
      if server' != server { assert Mapped(p, p.backends[server']); }
    }
  }

  lemma GiveBackOwned(p: Pool, pid: nat)
    requires Owned(p) && CanMove(p, GiveBack(pid))
    ensures Owned(Moved(p, GiveBack(pid)))
  {
    var q := Moved(p, GiveBack(pid));
    var c := p.held[pid].value;
    assert q.returned[|q.returned| - 1] == c;
    forall conn: nat
      ensures Mapped(q, conn) <==> Mapped(p, conn)
      ensures conn in q.returned <==> conn in p.returned || conn == c
      ensures IsHeld(p, conn) && conn != c ==> IsHeld(q, conn)
    {
      HolderKept(p, q, conn, pid);
    }
    forall server' | server' in q.backends
      ensures Mapped(q, q.backends[server']) && q.dialed[q.backends[server']] == server'
    {
      assert Mapped(p, p.backends[server']);
    }
  }

  lemma GrowOwned(p: Pool)
    requires Owned(p)
    ensures Owned(Moved(p, Grow))
  {
    var q := Moved(p, Grow);
    forall conn: nat
      ensures Mapped(q, conn) <==> Mapped(p, conn)
      ensures IsHeld(p, conn) ==> IsHeld(q, conn)
    {
      if IsHeld(p, conn) {
        var i :| 0 <= i < |p.held| && p.held[i] == Some(conn);
        assert q.held[i] == Some(conn);
      }
    }
  }

  lemma MarkOwned(p: Pool, conn: nat)
    requires Owned(p)
    ensures Owned(Moved(p, Mark(conn)))
  {
    var q := Moved(p, Mark(conn));
    assert forall c: nat :: Mapped(q, c) <==> Mapped(p, c);
    assert forall c: nat :: IsHeld(p, c) ==> IsHeld(q, c);
    assert forall server :: server in q.backends ==> Mapped(p, p.backends[server]);
  }

  lemma MoveOwned(p: Pool, m: Move)
    requires Owned(p) && CanMove(p, m)
    ensures Owned(Moved(p, m))
  {
    hide Owned;
    match m
    case Idle =>
    case Grow => GrowOwned(p);
    case Dial(pid, server) => DialOwned(p, pid, server);
    case Unmap(pid, server) => UnmapOwned(p, pid, server);
    case Enter(pid, server) => EnterOwned(p, pid, server);
    case GiveBack(pid) => GiveBackOwned(p, pid);
    case Mark(conn) => MarkOwned(p, conn);
  }

  // ---------------------------------------------------------------- the session refines it

  /** Which move a step of the session amounts to. */
  function MoveOf(cfg: Config, s: State, a: Action): Move {
    match a
    case Receive(env) => if s.loop.Reading? && env.Envelope? && !env.hasId then Grow else Idle
    case Spawn => if s.loop.Granted? then Grow else Idle
    case Flag(conn) => Mark(conn)
    case Advance(pid, input) =>
      if pid < |s.procs| then ChangeMove(pid, React(cfg, s, s.procs[pid], input).change) else Idle
    case _ => Idle
  }

  function ChangeMove(pid: nat, c: Change): Move {
    match c
    case DialTo(server) => Dial(pid, server)
    case TakeOut(server) => Unmap(pid, server)
    case PutIn(server, _) => Enter(pid, server)
    case HandBack(_) => GiveBack(pid)
    case StartPump(_, _) => Grow
    case _ => Idle
  }

  lemma ReactPasses(cfg: Config, s: State, p: Proc, input: Input)
    ensures var e := React(cfg, s, p, input);
            var before, after := HeldBy(p), HeldBy(e.next);
            match e.change {
              case DialTo(_) => before == None && after == Some(|s.dialed|)
              case TakeOut(server) => server in s.backends && before == None && after == Some(s.backends[server])
              case PutIn(server, conn) => p.Installing? && server == p.route.server && server !in s.backends
                                          && before == Some(conn) && after == None
              case HandBack(conn) => before == Some(conn) && after == None
              case _ => after == before
            }
  {
    hide RouteMessage, PeriodStart, TallyAt, QuotaAllows, IsCall;
  }

  lemma ReactInstalls(cfg: Config, s: State, p: Proc, input: Input)
    ensures var e := React(cfg, s, p, input);
            && (e.next.Installing? ==> e.change == DialTo(e.next.route.server) && e.next.conn == |s.dialed|)
            && (e.next.Spawning? ==> e.change == PutIn(e.next.route.server, e.next.conn))
            && (p.Spawning? <==> e.change.StartPump?)
            && (e.change.StartPump? ==> e.change.conn == p.conn)
  {
    hide RouteMessage, PeriodStart, TallyAt, QuotaAllows, IsCall;
  }

  /** What a process may do with the connection it holds. */
  lemma ReactHolds(cfg: Config, s: State, p: Proc, input: Input)
    ensures var e := React(cfg, s, p, input);
            var before, after := HeldBy(p), HeldBy(e.next);
            match e.change {
              case DialTo(_) => before == None && after == Some(|s.dialed|)
              case TakeOut(server) => server in s.backends && before == None && after == Some(s.backends[server])
              case PutIn(server, conn) => p.Installing? && server == p.route.server && server !in s.backends
                                          && before == Some(conn) && after == None
              case HandBack(conn) => before == Some(conn) && after == None
              case _ => after == before
            }
    ensures var e := React(cfg, s, p, input);
            && (e.next.Installing? ==> e.change == DialTo(e.next.route.server) && e.next.conn == |s.dialed|)
            && (e.next.Spawning? ==> e.change == PutIn(e.next.route.server, e.next.conn))
            && (p.Spawning? <==> e.change.StartPump?)
            && (e.change.StartPump? ==> e.change.conn == p.conn)
  {
    hide React, HeldBy;
    ReactPasses(cfg, s, p, input);
    ReactInstalls(cfg, s, p, input);
  }

  /** A handler installs a connection under the server it dialed it for. */
  ghost predicate Aimed(s: State) {
    forall i :: 0 <= i < |s.procs| && s.procs[i].Installing? ==>
      s.procs[i].conn < |s.dialed| && s.dialed[s.procs[i].conn] == s.procs[i].route.server
  }

  lemma AimedStep(cfg: Config, s: State, a: Action)
    requires Aimed(s)
    ensures Aimed(Step(cfg, s, a))
  {
    hide React;
    if a.Advance? && a.pid < |s.procs| {
      ReactHolds(cfg, s, s.procs[a.pid], a.input);
    }
  }

  lemma AdvanceIsMove(cfg: Config, s: State, pid: nat, input: Input)
    requires Aimed(s) && pid < |s.procs|
    ensures var m := ChangeMove(pid, React(cfg, s, s.procs[pid], input).change);
            CanMove(View(s), m) && View(AdvanceStep(cfg, s, pid, input)) == Moved(View(s), m)
  {
    hide React;
    var e := React(cfg, s, s.procs[pid], input);
    var t := AdvanceStep(cfg, s, pid, input);
    ReactHolds(cfg, s, s.procs[pid], input);
    AdvanceFrame(cfg, s, pid, input);
    var v := View(s);
    assert v.held[pid] == HeldBy(s.procs[pid]);
    assert View(t).held == v.held[pid := HeldBy(e.next)] + (if e.change.StartPump? then [None] else []);
    if HeldBy(e.next) == v.held[pid] {
      assert v.held[pid := HeldBy(e.next)] == v.held;
    }
  }

  /** Every step of the session is a legal move of the small machine. */
  lemma StepIsMove(cfg: Config, s: State, a: Action)
    requires Aimed(s)
    ensures CanMove(View(s), MoveOf(cfg, s, a)) && View(Step(cfg, s, a)) == Moved(View(s), MoveOf(cfg, s, a))
  {
    hide AdvanceStep, React, Aimed;
    var t := Step(cfg, s, a);
    if a.Advance? && a.pid < |s.procs| {
      AdvanceIsMove(cfg, s, a.pid, a.input);
    } else if MoveOf(cfg, s, a) == Grow {
      assert View(t).held == View(s).held + [None];
    } else {
      assert View(t).held == View(s).held;
    }
  }

  /** Connection ownership: in every reachable state each pooled connection is in exactly one place
      (held by one process, mapped under the server it was dialed for, or returned), is returned at
      most once, and was marked unhealthy by then. */
  lemma {:induction false} OwnershipInvariant(cfg: Config, s: State, actions: seq<Action>)
    requires Owned(View(s)) && Aimed(s)
    ensures Owned(View(Exec(cfg, s, actions))) && Aimed(Exec(cfg, s, actions))
    decreases |actions|
  {
    hide Owned, Aimed, Step, View;
    if actions != [] {
      StepIsMove(cfg, s, actions[0]);
      MoveOwned(View(s), MoveOf(cfg, s, actions[0]));
      AimedStep(cfg, s, actions[0]);
      OwnershipInvariant(cfg, Step(cfg, s, actions[0]), actions[1..]);
    }
  }

  lemma InitOwned(now: int)
    ensures Owned(View(Init(now))) && Aimed(Init(now))
  {}

  /** The places a connection can be in, counted. */
  ghost function Places(s: State, conn: nat): nat {
    (if IsHeld(View(s), conn) then 1 else 0) + (if Mapped(View(s), conn) then 1 else 0)
    + (if conn in s.returned then 1 else 0)
  }

  lemma ExactlyOnePlace(cfg: Config, now: int, actions: seq<Action>, conn: nat)
    ensures var s := Exec(cfg, Init(now), actions);
            && (conn < |s.dialed| ==> Places(s, conn) == 1)
            && (conn >= |s.dialed| ==> Places(s, conn) == 0)
            && (conn in s.returned ==> conn in s.unhealthy && multiset(s.returned)[conn] == 1)
            && (forall i, j :: 0 <= i < j < |s.procs| && HeldBy(s.procs[i]) == Some(conn) ==>
                HeldBy(s.procs[j]) != Some(conn))
  {
    InitOwned(now);
    OwnershipInvariant(cfg, Init(now), actions);
    var s := Exec(cfg, Init(now), actions);
    var v := View(s);
    if conn in s.returned {
      OnceInSequence(s.returned, conn);
    }
    forall i, j | 0 <= i < j < |s.procs| && HeldBy(s.procs[i]) == Some(conn)
      ensures HeldBy(s.procs[j]) != Some(conn)
    {
      assert v.held[i] == HeldBy(s.procs[i]) && v.held[j] == HeldBy(s.procs[j]);
    }
  }

  lemma {:induction false} OnceInSequence(xs: seq<nat>, x: nat)
    requires x in xs && forall i, j :: 0 <= i < j < |xs| ==> xs[i] != xs[j]
    ensures multiset(xs)[x] == 1
  {
    var last := xs[|xs| - 1];
    var init := xs[..|xs| - 1];
    assert xs == init + [last];
    if x == last {
      assert x !in init;
    } else {
      assert x in init;
      OnceInSequence(init, x);
    }
  }

  // ---------------------------------------------------------------- one pump for every installed backend

  ghost predicate IsSpawning(s: State, conn: nat) {
    exists i :: 0 <= i < |s.procs| && s.procs[i].Spawning? && s.procs[i].conn == conn
  }

  /** A connection enters the map at most once; from then on its pump has been started once, or
      exactly one handler is about to start it. */
  ghost predicate PumpsOk(s: State) {
    && (forall conn :: conn in s.installed ==> conn < |s.dialed|)
    && (forall i :: 0 <= i < |s.procs| && s.procs[i].Installing? ==> s.procs[i].conn !in s.installed)
    && (forall i :: 0 <= i < |s.procs| && s.procs[i].Spawning? ==>
          s.procs[i].conn in s.installed && s.procs[i].conn !in s.pumps)
    && (forall i, j :: 0 <= i < j < |s.procs| && s.procs[i].Spawning? && s.procs[j].Spawning? ==>
          s.procs[i].conn != s.procs[j].conn)
    && (forall conn :: conn in s.pumps ==> conn in s.installed)
    && (forall i, j :: 0 <= i < j < |s.pumps| ==> s.pumps[i] != s.pumps[j])
    && (forall conn :: conn in s.installed ==> conn in s.pumps || IsSpawning(s, conn))
  }

  /** Steps that touch no pump bookkeeping. */
  ghost predicate Quiet(s: State, t: State) {
    && |s.procs| <= |t.procs|
    && (forall i :: 0 <= i < |s.procs| ==>
          t.procs[i] == s.procs[i] || !(s.procs[i].Spawning? || t.procs[i].Spawning?))
    && (forall i :: |s.procs| <= i < |t.procs| ==> !t.procs[i].Spawning?)
    && (t.installed, t.pumps) == (s.installed, s.pumps) && s.dialed <= t.dialed
    && (forall i :: 0 <= i < |t.procs| && t.procs[i].Installing? ==>
          t.procs[i].conn >= |s.dialed| || (i < |s.procs| && t.procs[i] == s.procs[i]))
  }

  lemma SpawningKept(s: State, t: State)
    requires |s.procs| <= |t.procs|
    requires forall i :: 0 <= i < |s.procs| && s.procs[i].Spawning? ==> t.procs[i] == s.procs[i]
    ensures forall conn :: IsSpawning(s, conn) ==> IsSpawning(t, conn)
  {
    forall conn | IsSpawning(s, conn)
      ensures IsSpawning(t, conn)
    {
      var i :| 0 <= i < |s.procs| && s.procs[i].Spawning? && s.procs[i].conn == conn;
      assert t.procs[i] == s.procs[i];
    }
  }

  lemma QuietPump(s: State, t: State)
    requires PumpsOk(s) && Quiet(s, t)
    ensures PumpsOk(t)
  {
    SpawningKept(s, t);
  }

  /** A connection is put into the map. */
  lemma InstallPump(s: State, t: State, pid: nat, p: Proc)
    requires pid < |s.procs| && PumpsOk(s) && Owned(View(s)) && s.procs[pid].Installing?
    requires p.Spawning? && p.conn == s.procs[pid].conn
    requires t.procs == s.procs[pid := p] && t.installed == s.installed + {p.conn}
    requires t.pumps == s.pumps && t.dialed == s.dialed
    ensures PumpsOk(t)
  {
    var v := View(s);
    SpawningKept(s, t);
    assert v.held[pid] == Some(p.conn);
    forall i | 0 <= i < |s.procs| && i != pid && s.procs[i].Installing?
      ensures s.procs[i].conn != p.conn
    {
      assert v.held[i] == Some(s.procs[i].conn);
    }
    assert t.procs[pid] == p && IsSpawning(t, p.conn);
  }

  /** A pump is started. */
  lemma SpawnPump(s: State, t: State, pid: nat, p: Proc, pump: Proc)
    requires pid < |s.procs| && PumpsOk(s) && s.procs[pid].Spawning?
    requires !p.Spawning? && !p.Installing? && pump.Pumping?
    requires t.procs == s.procs[pid := p] + [pump] && t.pumps == s.pumps + [s.procs[pid].conn]
    requires t.installed == s.installed && t.dialed == s.dialed
    ensures PumpsOk(t)
  {
    var c := s.procs[pid].conn;
    assert t.pumps[|s.pumps|] == c;
    assert forall i :: 0 <= i < |s.procs| && i != pid ==> t.procs[i] == s.procs[i];
    forall conn | conn in t.installed
      ensures conn in t.pumps || IsSpawning(t, conn)
    {
      if conn != c && conn !in s.pumps {
        assert IsSpawning(s, conn);
        var i :| 0 <= i < |s.procs| && s.procs[i].Spawning? && s.procs[i].conn == conn;
        assert t.procs[i] == s.procs[i];
      }
    }
  }

  lemma PumpsOkAdvance(cfg: Config, s: State, pid: nat, input: Input)
    requires pid < |s.procs| && PumpsOk(s) && Owned(View(s))
    ensures PumpsOk(AdvanceStep(cfg, s, pid, input))
  {
    hide React, PumpsOk, Owned, View;
    var e := React(cfg, s, s.procs[pid], input);
    var t := AdvanceStep(cfg, s, pid, input);
    ReactHolds(cfg, s, s.procs[pid], input);
    AdvanceFrame(cfg, s, pid, input);
    if e.change.StartPump? {
      SpawnPump(s, t, pid, e.next, Pumping(e.change.server, e.change.conn));
    } else if e.change.PutIn? {
      PutInSpawns(cfg, s, s.procs[pid], input);
      InstallPump(s, t, pid, e.next);
    } else {
      QuietPump(s, t);
    }
  }

  lemma PutInSpawns(cfg: Config, s: State, p: Proc, input: Input)
    ensures var e := React(cfg, s, p, input);
            e.change.PutIn? ==> p.Installing? && e.next.Spawning? && e.next.conn == p.conn == e.change.conn
  {
    hide RouteMessage, PeriodStart, TallyAt, QuotaAllows;
  }

  lemma PumpsOkStep(cfg: Config, s: State, a: Action)
    requires PumpsOk(s) && Owned(View(s))
    ensures PumpsOk(Step(cfg, s, a))
  {
    hide PumpsOk, Owned, View, AdvanceStep;
    if a.Advance? && a.pid < |s.procs| {
      PumpsOkAdvance(cfg, s, a.pid, a.input);
    } else {
      QuietPump(s, Step(cfg, s, a));
    }
  }

  lemma {:induction false} PumpInvariant(cfg: Config, s: State, actions: seq<Action>)
    requires Owned(View(s)) && Aimed(s) && PumpsOk(s)
    ensures PumpsOk(Exec(cfg, s, actions))
    decreases |actions|
  {
    hide Owned, Aimed, Step, View, PumpsOk;
    if actions != [] {
      PumpsOkStep(cfg, s, actions[0]);
      OwnershipInvariant(cfg, s, actions[..1]);
      assert actions[..1][1..] == [];
      assert Exec(cfg, s, actions[..1]) == Step(cfg, s, actions[0]);
      PumpInvariant(cfg, Step(cfg, s, actions[0]), actions[1..]);
    }
  }

  /** In every reachable state each installed backend has had exactly one pump started, except while
      one handler is between installing it and starting its pump; nothing else has a pump. */
  lemma OnePumpPerBackend(cfg: Config, now: int, actions: seq<Action>, conn: nat)
    ensures var s := Exec(cfg, Init(now), actions);
            && (conn in s.installed ==>
                  multiset(s.pumps)[conn] == if IsSpawning(s, conn) then 0 else 1)
            && (conn !in s.installed ==> conn !in s.pumps && !IsSpawning(s, conn))
  {
    InitOwned(now);
    PumpInvariant(cfg, Init(now), actions);
    var s := Exec(cfg, Init(now), actions);
    if conn in s.pumps {
      OnceInSequence(s.pumps, conn);
    }
  }
}
