/** The buffered usage tracker: `Track` callers, a background flush worker, flushes made by queries, and
    `Close`, interleaved at their lock regions and external calls. */
module Tracker {
  import opened UsageStore

  datatype Config = Config(bufferSize: int, maxRetries: int)

  /** Zero means the default of three retries. */
  function Retries(cfg: Config): int {
    if cfg.maxRetries == 0 then 3 else cfg.maxRetries
  }

  datatype Role = Worker | Caller | Closer

  /** Where a flushing process stands: waiting for work, waiting for the worker to end, about to swap
      the buffer, about to add retried events, storing (with the number of failures so far), opening
      the dead-letter file, writing to it, closing that file, or done. */
  datatype Point =
    | Idle
    | Waiting
    | Swapping
    | Collecting(batch: seq<Event>)
    | Storing(batch: seq<Event>, failures: nat)
    | Opening(batch: seq<Event>)
    | Encoding(batch: seq<Event>)
    | Sealing
    | Ended

  datatype Proc = Proc(role: Role, point: Point)

  /** What the processes share: the event buffer, the retry buffer, the one-slot flush signal, the
      shutdown flag and whether the dead-letter file is open. */
  datatype Shared = Shared(buffer: seq<Event>, retry: seq<Event>, signal: bool, done: bool, fileOpen: bool)

  /** `triggers` are the `Track` calls that saw a full buffer, each with whether its signal is still due.
      `stored`, `dead` and `lost` say where events ended up; `tracked` is every event ever tracked. */
  datatype State = State(
    shared: Shared, triggers: seq<bool>, procs: seq<Proc>,
    stored: multiset<Event>, dead: multiset<Event>, lost: multiset<Event>, tracked: multiset<Event>)

  /** Process 0 is the worker. */
  function Init(): State {
    State(Shared([], [], false, false, false), [], [Proc(Worker, Idle)],
          multiset{}, multiset{}, multiset{}, multiset{})
  }

  /** What the worker's `select` picked. */
  datatype Pick = OnDone | OnTick | OnSignal

  datatype Action =
    | Track(event: Event)
    | Trigger(i: nat)
    | StartFlush
    | Close
    | Advance(pid: nat, ok: bool, pick: Pick)

  /** One process's step: its next point, the new shared state, and the events that left the tracker. */
  datatype Effect = Effect(point: Point, shared: Shared, stored: seq<Event>, dead: seq<Event>, lost: seq<Event>)

  function Move(point: Point, shared: Shared): Effect {
    Effect(point, shared, [], [], [])
  }

  /** Where a process goes when its flush is over. */
  function After(role: Role): Point {
    match role
    case Worker => Idle
    case Caller => Ended
    case Closer => Sealing
  }

  /** `ok` is the outcome of the external call made at this point, `workerEnded` whether the worker has
      returned. */
  function React(cfg: Config, p: Proc, sh: Shared, workerEnded: bool, ok: bool, pick: Pick): Effect {
    match p.point
    case Idle =>
      (match pick
       case OnDone => Move(if sh.done then Ended else Idle, sh)
       case OnTick => Move(Swapping, sh)
       case OnSignal => Move(if sh.signal then Swapping else Idle, sh.(signal := false)))
    case Waiting => Move(if workerEnded then Swapping else Waiting, sh)
    case Swapping =>
      if sh.buffer == [] then Move(After(p.role), sh)
      else Move(Collecting(sh.buffer), sh.(buffer := []))
    case Collecting(batch) =>
      // a negative retry count makes no attempt and reports no error
      Move(if Retries(cfg) < 0 then After(p.role) else Storing(sh.retry + batch, 0), sh.(retry := []))
    case Storing(batch, failures) =>
      if ok then Effect(After(p.role), sh, batch, [], [])
      else Move(if failures < Retries(cfg) then Storing(batch, failures + 1) else Opening(batch), sh)
    case Opening(batch) =>
      if sh.fileOpen || ok then Move(Encoding(batch), sh.(fileOpen := true))
      else Effect(After(p.role), sh, [], [], batch)
    case Encoding(batch) =>
      if batch == [] then Move(After(p.role), sh)
      else if ok then Effect(Encoding(batch[1..]), sh, [], [batch[0]], [])
      else Effect(Encoding(batch[1..]), sh, [], [], [batch[0]])
    case Sealing => Move(Ended, sh.(fileOpen := false))
    case Ended => Move(Ended, sh)
  }

  function Apply(s: State, pid: nat, e: Effect): State
    requires pid < |s.procs|
  {
    s.(shared := e.shared, procs := s.procs[pid := s.procs[pid].(point := e.point)],
       stored := s.stored + multiset(e.stored), dead := s.dead + multiset(e.dead),
       lost := s.lost + multiset(e.lost))
  }

  /** What process `pid` does next. */
  function Next(cfg: Config, s: State, pid: nat, ok: bool, pick: Pick): Effect
    requires pid < |s.procs|
  {
    React(cfg, s.procs[pid], s.shared, s.procs[0].point.Ended?, ok, pick)
  }

  function Step(cfg: Config, s: State, a: Action): State {
    match a
    case Track(event) =>
      var buffer := s.shared.buffer + [event];
      s.(shared := s.shared.(buffer := buffer), tracked := s.tracked + multiset{event},
         triggers := if |buffer| >= cfg.bufferSize then s.triggers + [true] else s.triggers)
    case Trigger(i) =>
      if i < |s.triggers| && s.triggers[i]
      then s.(triggers := s.triggers[i := false], shared := s.shared.(signal := true)) else s
    case StartFlush => s.(procs := s.procs + [Proc(Caller, Swapping)])
    case Close =>
      if s.shared.done then s
      else s.(shared := s.shared.(done := true), procs := s.procs + [Proc(Closer, Waiting)])
    case Advance(pid, ok, pick) =>
      if pid < |s.procs| then Apply(s, pid, Next(cfg, s, pid, ok, pick)) else s
  }

  function Exec(cfg: Config, s: State, actions: seq<Action>): State
    decreases |actions|
  {
    if actions == [] then s else Exec(cfg, Step(cfg, s, actions[0]), actions[1..])
  }

  // ---------------------------------------------------------------- conservation

  function Batch(p: Point): seq<Event> {
    match p
    case Collecting(batch) => batch
    case Storing(batch, _) => batch
    case Opening(batch) => batch
    case Encoding(batch) => batch
    case _ => []
  }

  /** Events inside flushes. */
  ghost function InFlight(procs: seq<Proc>): multiset<Event> {
    if procs == [] then multiset{}
    else InFlight(procs[..|procs| - 1]) + multiset(Batch(procs[|procs| - 1].point))
  }

  lemma {:induction false} InFlightUpdate(procs: seq<Proc>, i: nat, p: Proc)
    requires i < |procs|
    ensures InFlight(procs[i := p]) + multiset(Batch(procs[i].point)) == InFlight(procs) + multiset(Batch(p.point))
  {
    hide Batch;
    var last := |procs| - 1;
    var init := procs[..last];
    if i == last {
      assert procs[i := p][..last] == init;
    } else {
      InFlightUpdate(init, i, p);
      assert procs[i := p][..last] == init[i := p];
      Exchange(InFlight(init[i := p]), multiset(Batch(procs[i].point)), InFlight(init), multiset(Batch(p.point)),
               multiset(Batch(procs[last].point)));
    }
  }

  lemma Exchange<T>(a: multiset<T>, b: multiset<T>, c: multiset<T>, d: multiset<T>, x: multiset<T>)
    requires a + b == c + d
    ensures a + x + b == c + x + d
  {
    assert a + x + b == a + b + x;
    assert c + x + d == c + d + x;
  }

  lemma InFlightAppend(procs: seq<Proc>, p: Proc)
    ensures InFlight(procs + [p]) == InFlight(procs) + multiset(Batch(p.point))
  {
    assert (procs + [p])[..|procs|] == procs;
  }

  /** Events no longer in the tracker. */
  ghost function Settled(s: State): multiset<Event> {
    s.stored + s.dead + s.lost
  }

  /** Every tracked event is in exactly one place, with multiplicity; nothing waits for a retry. */
  ghost predicate Conserved(s: State) {
    && s.shared.retry == []
    && s.tracked == multiset(s.shared.buffer) + InFlight(s.procs) + Settled(s)
  }

  ghost function Gone(e: Effect): multiset<Event> {
    multiset(e.stored) + multiset(e.dead) + multiset(e.lost)
  }

  /** What one process's step moves: an idle-handed process takes the whole buffer, or it hands over
      events from the front of its batch. */
  ghost predicate Moves(p: Point, buffer: seq<Event>, e: Effect) {
    || (Batch(p) == [] && Batch(e.point) == buffer && e.shared.buffer == [] && Out(e) == [])
    || (e.shared.buffer == buffer && Out(e) + Batch(e.point) == Batch(p))
  }

  ghost function Out(e: Effect): seq<Event> {
    e.stored + e.dead + e.lost
  }

  lemma ReactMoves(cfg: Config, p: Proc, sh: Shared, workerEnded: bool, ok: bool, pick: Pick)
    requires sh.retry == [] && Retries(cfg) >= 0
    ensures var e := React(cfg, p, sh, workerEnded, ok, pick);
            e.shared.retry == [] && Moves(p.point, sh.buffer, e)
  {
    hide Retries;
    var e := React(cfg, p, sh, workerEnded, ok, pick);
    match p.point
    case Collecting(batch) =>
      assert [] + batch == batch;
    case Storing(batch, failures) =>
      Units(batch);
    case Opening(batch) =>
      Units(batch);
    case Encoding(batch) =>
      if batch != [] {
        Units([batch[0]]);
        assert [batch[0]] + batch[1..] == batch;
      }
    case _ =>
  }

  lemma Units<T>(s: seq<T>)
    ensures s + [] == s && [] + s == s && [] + [] == s[..0]
  {}

  lemma ReactMovesAll(cfg: Config, p: Proc, sh: Shared, workerEnded: bool, ok: bool, pick: Pick)
    requires sh.retry == [] && Retries(cfg) >= 0
    ensures var e := React(cfg, p, sh, workerEnded, ok, pick);
            && e.shared.retry == []
            && multiset(e.shared.buffer) + multiset(Batch(e.point)) + Gone(e)
               == multiset(sh.buffer) + multiset(Batch(p.point))
  {
    hide Retries, React, Batch;
    var e := React(cfg, p, sh, workerEnded, ok, pick);
    ReactMoves(cfg, p, sh, workerEnded, ok, pick);
    assert multiset(Out(e)) == Gone(e);
    if e.shared.buffer == sh.buffer && Out(e) + Batch(e.point) == Batch(p.point) {
      assert multiset(Batch(p.point)) == Gone(e) + multiset(Batch(e.point));
    }
  }

  lemma Rebalance<T>(total: multiset<T>, b0: multiset<T>, f0: multiset<T>, x0: multiset<T>, rest: multiset<T>,
                     b1: multiset<T>, f1: multiset<T>, x1: multiset<T>, gone: multiset<T>)
    requires total == b0 + f0 + rest
    requires f1 + x0 == f0 + x1
    requires b1 + x1 + gone == b0 + x0
    ensures total == b1 + f1 + (rest + gone)
  {
    forall e: T ensures total[e] == (b1 + f1 + (rest + gone))[e] {
      assert (f1 + x0)[e] == (f0 + x1)[e];
      assert (b1 + x1 + gone)[e] == (b0 + x0)[e];
    }
  }

  lemma ConservedApply(s: State, pid: nat, e: Effect)
    requires Conserved(s) && pid < |s.procs| && e.shared.retry == []
    requires multiset(e.shared.buffer) + multiset(Batch(e.point)) + Gone(e)
             == multiset(s.shared.buffer) + multiset(Batch(s.procs[pid].point))
    ensures Conserved(Apply(s, pid, e))
  {
    hide Batch, InFlight;
    var t := Apply(s, pid, e);
    InFlightUpdate(s.procs, pid, t.procs[pid]);
    Rebalance(s.tracked, multiset(s.shared.buffer), InFlight(s.procs), multiset(Batch(s.procs[pid].point)),
              Settled(s), multiset(e.shared.buffer), InFlight(t.procs), multiset(Batch(e.point)), Gone(e));
    SettledApply(s, pid, e);
  }

  lemma SettledApply(s: State, pid: nat, e: Effect)
    requires pid < |s.procs|
    ensures Settled(Apply(s, pid, e)) == Settled(s) + Gone(e)
  {
    var (a, b, c) := (s.stored, s.dead, s.lost);
    var (x, y, z) := (multiset(e.stored), multiset(e.dead), multiset(e.lost));
    assert (a + x) + (b + y) + (c + z) == (a + b + c) + (x + y + z);
  }

  lemma ConservedStep(cfg: Config, s: State, a: Action)
    requires Conserved(s) && Retries(cfg) >= 0
    ensures Conserved(Step(cfg, s, a))
  {
    hide React, InFlight, Retries, Batch;
    var t := Step(cfg, s, a);
    match a
    case Advance(pid, ok, pick) =>
      if pid < |s.procs| {
        ReactMovesAll(cfg, s.procs[pid], s.shared, s.procs[0].point.Ended?, ok, pick);
        ConservedApply(s, pid, Next(cfg, s, pid, ok, pick));
      }
    case Track(e) => ConservedTrack(cfg, s, e);
    case Trigger(_) =>
    case StartFlush => ConservedStart(s, Caller, Swapping);
    case Close => ConservedStart(s, Closer, Waiting);
  }

  lemma ConservedTrack(cfg: Config, s: State, e: Event)
    requires Conserved(s)
    ensures Conserved(Step(cfg, s, Track(e)))
  {
    hide InFlight;
    var (b, f, r) := (multiset(s.shared.buffer), InFlight(s.procs), Settled(s));
    assert b + f + r + multiset{e} == (b + multiset{e}) + f + r;
  }

  lemma ConservedStart(s: State, role: Role, point: Point)
    requires Conserved(s) && (point.Swapping? || point.Waiting?)
    ensures InFlight(s.procs + [Proc(role, point)]) == InFlight(s.procs)
  {
    InFlightAppend(s.procs, Proc(role, point));
  }

  /** Conservation: over every interleaving of tracking, flushing and closing, the tracked events are
      those buffered, in flight, stored, dead-lettered, or lost because the dead-letter file could not
      be opened or written; so an event tracked once is stored at most once. */
  lemma {:induction false} EventsConserved(cfg: Config, s: State, actions: seq<Action>)
    requires Conserved(s) && Retries(cfg) >= 0
    ensures Conserved(Exec(cfg, s, actions))
    ensures var t := Exec(cfg, s, actions); forall e :: t.stored[e] + t.dead[e] + t.lost[e] <= t.tracked[e]
    decreases |actions|
  {
    hide Step, InFlight;
    if actions != [] {
      ConservedStep(cfg, s, actions[0]);
      EventsConserved(cfg, Step(cfg, s, actions[0]), actions[1..]);
    }
  }

  lemma InitConserved()
    ensures Conserved(Init())
  {
    assert Init().procs[..0] == [];
  }

  /** A run that swaps one event out of the buffer and reports success without storing it. */
  function LosingRun(e: Event): seq<Action> {
    [Track(e), StartFlush, Advance(1, true, OnTick), Advance(1, true, OnTick)]
  }

  /** With a negative retry count a flush drops its batch silently. */
  lemma NegativeRetriesLose(cfg: Config, e: Event)
    requires Retries(cfg) < 0
    ensures !Conserved(Exec(cfg, Init(), LosingRun(e)))
  {
    hide InFlight, Conserved, Batch, Step;
    var a := LosingRun(e);
    var s2 := Step(cfg, Step(cfg, Init(), a[0]), a[1]);
    var s4 := Step(cfg, Step(cfg, s2, a[2]), a[3]);
    LosingStarts(cfg, e);
    LosingEnds(cfg, e, s2);
    assert a[1..][1..][1..][1..] == [];
    var s1, s3 := Step(cfg, Init(), a[0]), Step(cfg, s2, a[2]);
    assert Exec(cfg, Init(), a) == Exec(cfg, s1, a[1..]) == Exec(cfg, s2, a[1..][1..])
        == Exec(cfg, s3, a[1..][1..][1..]) == s4;
  }

  lemma LosingStarts(cfg: Config, e: Event)
    ensures var s := Step(cfg, Step(cfg, Init(), Track(e)), StartFlush);
            && s.procs == [Proc(Worker, Idle), Proc(Caller, Swapping)]
            && s.shared.buffer == [e] && s.tracked == multiset{e} && Settled(s) == multiset{}
  {}

  lemma LosingEnds(cfg: Config, e: Event, s: State)
    requires Retries(cfg) < 0
    requires s.procs == [Proc(Worker, Idle), Proc(Caller, Swapping)]
    requires s.shared.buffer == [e] && s.tracked == multiset{e} && Settled(s) == multiset{}
    ensures !Conserved(Step(cfg, Step(cfg, s, Advance(1, true, OnTick)), Advance(1, true, OnTick)))
  {
    hide InFlight, Conserved, React, Batch;
    var next := Advance(1, true, OnTick);
    var s3 := Step(cfg, s, next);
    assert Next(cfg, s, 1, true, OnTick) == Move(Collecting([e]), s.shared.(buffer := [])) by { LosingSwap(cfg, e, s); }
    QuietMove(s, 1, Collecting([e]), s.shared.(buffer := []));
    var s4 := Step(cfg, s3, next);
    assert Next(cfg, s3, 1, true, OnTick) == Move(Ended, s3.shared.(retry := [])) by { LosingDrop(cfg, e, s3); }
    QuietMove(s3, 1, Ended, s3.shared.(retry := []));
    assert s4.procs == [Proc(Worker, Idle), Proc(Caller, Ended)];
    NotConserved(s4, e);
  }

  lemma LosingSwap(cfg: Config, e: Event, s: State)
    requires |s.procs| == 2 && s.procs[1] == Proc(Caller, Swapping) && s.shared.buffer == [e]
    ensures Next(cfg, s, 1, true, OnTick) == Move(Collecting([e]), s.shared.(buffer := []))
  {}

  lemma LosingDrop(cfg: Config, e: Event, s: State)
    requires Retries(cfg) < 0
    requires |s.procs| == 2 && s.procs[1] == Proc(Caller, Collecting([e]))
    ensures Next(cfg, s, 1, true, OnTick) == Move(Ended, s.shared.(retry := []))
  {}

  lemma QuietMove(s: State, pid: nat, point: Point, sh: Shared)
    requires pid < |s.procs|
    ensures var t := Apply(s, pid, Move(point, sh));
            Settled(t) == Settled(s) && t.tracked == s.tracked && t.shared == sh
            && t.procs == s.procs[pid := s.procs[pid].(point := point)]
  {
    SettledApply(s, pid, Move(point, sh));
  }

  lemma NotConserved(s: State, e: Event)
    requires s.shared.buffer == [] && s.tracked == multiset{e} && Settled(s) == multiset{}
    requires forall i :: 0 <= i < |s.procs| ==> s.procs[i].point.Idle? || s.procs[i].point.Ended?
    ensures !Conserved(s)
  {
    NothingInFlight(s.procs);
    assert e in s.tracked;
  }

  /** Exactly the configurations with a non-negative retry count conserve events on every run. */
  lemma ConservesIff(cfg: Config)
    ensures (forall actions :: Conserved(Exec(cfg, Init(), actions))) <==> cfg.maxRetries >= 0
  {
    InitConserved();
    if Retries(cfg) >= 0 {
      forall actions ensures Conserved(Exec(cfg, Init(), actions)) { EventsConserved(cfg, Init(), actions); }
    } else {
      var e := Event("", 0, "", "", "", "", 0, 0, 0, true, "", map[]);
      NegativeRetriesLose(cfg, e);
    }
  }

  // ---------------------------------------------------------------- closing

  /** Once the closing flush is past its swap the buffer is empty, provided nothing is tracked. */
  ghost predicate Closing(s: State, pid: nat) {
    && pid < |s.procs| && s.procs[pid].role == Closer
    && (s.procs[pid].point.Waiting? || s.procs[pid].point.Swapping? || s.shared.buffer == [])
  }

  lemma {:induction false} ClosingRun(cfg: Config, s: State, actions: seq<Action>, pid: nat)
    requires Closing(s, pid) && forall i :: 0 <= i < |actions| ==> !actions[i].Track?
    ensures Closing(Exec(cfg, s, actions), pid)
    decreases |actions|
  {
    if actions != [] {
      ClosingStep(cfg, s, actions[0], pid);
      ClosingRun(cfg, Step(cfg, s, actions[0]), actions[1..], pid);
    }
  }

  lemma ClosingStep(cfg: Config, s: State, a: Action, pid: nat)
    requires Closing(s, pid) && !a.Track?
    ensures Closing(Step(cfg, s, a), pid)
  {
    hide React;
    if a.Advance? && a.pid < |s.procs| {
      ReactDrains(cfg, s.procs[a.pid], s.shared, s.procs[0].point.Ended?, a.ok, a.pick);
    }
  }

  /** No flush step fills the buffer, and leaving the swap empties it. */
  lemma ReactDrains(cfg: Config, p: Proc, sh: Shared, workerEnded: bool, ok: bool, pick: Pick)
    ensures var e := React(cfg, p, sh, workerEnded, ok, pick);
            && (sh.buffer == [] || p.point.Swapping? ==> e.shared.buffer == [])
            && (p.point.Waiting? ==> e.point.Waiting? || e.point.Swapping?)
  {}

  lemma {:induction false} NothingInFlight(procs: seq<Proc>)
    requires forall i :: 0 <= i < |procs| ==> Batch(procs[i].point) == []
    ensures InFlight(procs) == multiset{}
  {
    if procs != [] {
      NothingInFlight(procs[..|procs| - 1]);
    }
  }

  /** `Close` drains: from the moment it is called, if nothing more is tracked, then when it has ended
      and no other flush is running, every event ever tracked is stored, dead-lettered or lost. */
  lemma CloseDrains(cfg: Config, before: seq<Action>, during: seq<Action>)
    requires Retries(cfg) >= 0
    requires var s := Exec(cfg, Init(), before); !s.shared.done
    requires forall i :: 0 <= i < |during| ==> !during[i].Track?
    ensures var s := Exec(cfg, Init(), before);
            var t := Exec(cfg, Step(cfg, s, Close), during);
            |s.procs| < |t.procs| &&
            (t.procs[|s.procs|].point.Ended? && (forall i :: 0 <= i < |t.procs| ==> Batch(t.procs[i].point) == []) ==>
               t.shared.buffer == [] && t.tracked == t.stored + t.dead + t.lost)
  {
    hide Step, Exec;
    var s := Exec(cfg, Init(), before);
    InitConserved();
    EventsConserved(cfg, Init(), before);
    ConservedStep(cfg, s, Close);
    var c := Step(cfg, s, Close);
    CloseStarts(cfg, s);
    EventsConserved(cfg, c, during);
    ClosingRun(cfg, c, during, |s.procs|);
    var t := Exec(cfg, c, during);
    if forall i :: 0 <= i < |t.procs| ==> Batch(t.procs[i].point) == [] {
      NothingInFlight(t.procs);
    }
  }

  lemma CloseStarts(cfg: Config, s: State)
    requires !s.shared.done
    ensures Closing(Step(cfg, s, Close), |s.procs|)
  {}

  // ---------------------------------------------------------------- no lost wakeup

  ghost predicate TriggerDue(s: State) {
    exists i :: 0 <= i < |s.triggers| && s.triggers[i]
  }

  /** While the worker runs, a full buffer is never forgotten: a signal is pending, the worker is about
      to swap, or a `Track` call is about to signal. */
  ghost predicate Awake(cfg: Config, s: State) {
    && |s.procs| > 0 && s.procs[0].role == Worker
    && (forall i :: 0 < i < |s.procs| ==> s.procs[i].role != Worker && !s.procs[i].point.Idle?)
    && (s.shared.buffer != [] && |s.shared.buffer| >= cfg.bufferSize && !s.procs[0].point.Ended? ==>
          s.shared.signal || s.procs[0].point.Swapping? || TriggerDue(s))
  }

  lemma AwakeAdvance(cfg: Config, s: State, pid: nat, ok: bool, pick: Pick)
    requires pid < |s.procs| && Awake(cfg, s)
    ensures Awake(cfg, Apply(s, pid, Next(cfg, s, pid, ok, pick)))
  {
    hide React;
    var e := Next(cfg, s, pid, ok, pick);
    var t := Apply(s, pid, e);
    ReactWakes(cfg, s.procs[pid], s.shared, s.procs[0].point.Ended?, ok, pick);
    assert TriggerDue(s) ==> TriggerDue(t);
  }

  /** A step keeps the buffer or empties it; it takes the signal only by going to the swap, and leaves
      the swap only by emptying the buffer; what has ended stays ended. */
  lemma ReactWakes(cfg: Config, p: Proc, sh: Shared, workerEnded: bool, ok: bool, pick: Pick)
    ensures var e := React(cfg, p, sh, workerEnded, ok, pick);
            && (e.shared.buffer == sh.buffer || e.shared.buffer == [])
            && (sh.signal ==> e.shared.signal || e.point.Swapping?)
            && (p.point.Swapping? ==> e.shared.buffer == [])
            && (p.point.Ended? ==> e.point.Ended?)
            && (p.point.Idle? || e.shared.signal == sh.signal)
            && (p.role != Worker && !p.point.Idle? ==> !e.point.Idle?)
  {}

  lemma AwakeStep(cfg: Config, s: State, a: Action)
    requires Awake(cfg, s)
    ensures Awake(cfg, Step(cfg, s, a))
  {
    hide React;
    var t := Step(cfg, s, a);
    match a
    case Advance(pid, ok, pick) =>
      if pid < |s.procs| {
        AwakeAdvance(cfg, s, pid, ok, pick);
      }
    case Track(e) =>
      if |t.shared.buffer| >= cfg.bufferSize {
        assert t.triggers[|s.triggers|];
        assert TriggerDue(t);
      }
    case Trigger(_) =>
    case StartFlush =>
      assert TriggerDue(s) ==> TriggerDue(t);
    case Close =>
      assert TriggerDue(s) ==> TriggerDue(t);
  }

  lemma {:induction false} AwakeRun(cfg: Config, s: State, actions: seq<Action>)
    requires Awake(cfg, s)
    ensures Awake(cfg, Exec(cfg, s, actions))
    decreases |actions|
  {
    hide Step, Awake;
    if actions != [] {
      AwakeStep(cfg, s, actions[0]);
      AwakeRun(cfg, Step(cfg, s, actions[0]), actions[1..]);
    }
  }

  /** No wakeup is lost, in any interleaving: while the worker runs, a full buffer with no `Track` call
      between its append and its signal has a pending signal or a worker about to swap. */
  lemma NoLostWakeup(cfg: Config, actions: seq<Action>)
    ensures var t := Exec(cfg, Init(), actions);
            t.procs != [] &&
            (t.shared.buffer != [] && |t.shared.buffer| >= cfg.bufferSize && !t.procs[0].point.Ended?
             && !TriggerDue(t) ==>
               t.shared.signal || t.procs[0].point.Swapping?)
  {
    hide Exec;
    AwakeRun(cfg, Init(), actions);
  }
}
