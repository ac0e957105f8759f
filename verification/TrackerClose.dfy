/** Closing the tracker ends: the worker returns, the closer makes its final flush and returns, after a
    bounded number of their own steps, whatever the store and the dead-letter file answer and whoever
    else flushes meanwhile. */
module TrackerClose {
  import opened Tracker

  /** Steps after a flush: the worker has to return, the closer to close the file. */
  function Coda(role: Role): nat {
    if role == Caller then 0 else 1
  }

  function Tries(cfg: Config): nat {
    if Retries(cfg) < 0 then 0 else Retries(cfg)
  }

  /** A flush of `n` events from its first store attempt, at most. */
  function FlushSteps(cfg: Config, role: Role, n: nat): nat {
    Tries(cfg) + 1 + 1 + n + 1 + Coda(role)
  }

  /** A process's own steps until it has ended, at most, once nothing is tracked any more and the worker
      answers the shutdown as soon as it is idle. */
  function StepsLeft(cfg: Config, p: Proc, sh: Shared): nat {
    match p.point
    case Ended => 0
    case Idle => 1
    case Sealing => 1
    case Encoding(batch) => |batch| + 1 + Coda(p.role)
    case Opening(batch) => 1 + |batch| + 1 + Coda(p.role)
    case Storing(batch, failures) =>
      (if failures < Tries(cfg) then Tries(cfg) - failures else 0) + 1 + 1 + |batch| + 1 + Coda(p.role)
    case Collecting(batch) => 1 + FlushSteps(cfg, p.role, |sh.retry| + |batch|)
    case Swapping => 2 + FlushSteps(cfg, p.role, |sh.retry| + |sh.buffer|)
    case Waiting => 3 + FlushSteps(cfg, p.role, |sh.retry| + |sh.buffer|)
  }

  /** A step that is not held up brings the process nearer to its end. */
  lemma ReactFalls(cfg: Config, p: Proc, sh: Shared, workerEnded: bool, ok: bool, pick: Pick)
    requires !p.point.Ended? && (p.point.Waiting? ==> workerEnded)
    requires p.point.Idle? ==> pick == OnDone && sh.done
    ensures var e := React(cfg, p, sh, workerEnded, ok, pick);
            StepsLeft(cfg, p.(point := e.point), e.shared) < StepsLeft(cfg, p, sh)
  {
    hide Retries;
    if p.point.Collecting? {
      assert |sh.retry + p.point.batch| == |sh.retry| + |p.point.batch|;
    }
  }

  /** Flushing only takes from the buffers, leaves the shutdown flag, and never goes back to waiting. */
  lemma ReactShrinks(cfg: Config, p: Proc, sh: Shared, workerEnded: bool, ok: bool, pick: Pick)
    ensures var e := React(cfg, p, sh, workerEnded, ok, pick);
            && |e.shared.buffer| <= |sh.buffer| && |e.shared.retry| <= |sh.retry| && e.shared.done == sh.done
            && (e.point.Waiting? ==> p.point.Waiting? && !workerEnded)
            && (e.point.Idle? && !p.point.Idle? ==> p.role == Worker)
            && (p.point.Waiting? && !workerEnded ==> e == Move(Waiting, sh))
            && (p.point.Ended? ==> e == Move(Ended, sh))
  {}

  lemma FewerEventsLeft(cfg: Config, p: Proc, sh: Shared, sh': Shared)
    requires |sh'.buffer| <= |sh.buffer| && |sh'.retry| <= |sh.retry|
    ensures StepsLeft(cfg, p, sh') <= StepsLeft(cfg, p, sh)
  {}

  /** A closed tracker, whose closer is process `c`. */
  ghost predicate Closed(s: State, c: nat) {
    && 0 < c < |s.procs| && s.shared.done
    && s.procs[0].role == Worker && !s.procs[0].point.Waiting?
    && s.procs[c].role == Closer && !s.procs[c].point.Idle?
  }

  function BothLeft(cfg: Config, s: State, c: nat): nat
    requires 0 < c < |s.procs|
  {
    StepsLeft(cfg, s.procs[0], s.shared) + StepsLeft(cfg, s.procs[c], s.shared)
  }

  /** The worker answers the shutdown as soon as it is idle. */
  ghost predicate Prompt(s: State, a: Action) {
    && !a.Track?
    && (a.Advance? && a.pid == 0 && |s.procs| > 0 && s.procs[0].point.Idle? ==> a.pick == OnDone)
  }

  /** A step of the worker, or of the closer once the worker has ended. */
  ghost predicate Useful(s: State, a: Action, c: nat)
    requires 0 < c < |s.procs|
  {
    a.Advance? && ((a.pid == 0 && !s.procs[0].point.Ended?) ||
                   (a.pid == c && s.procs[0].point.Ended? && !s.procs[c].point.Ended?))
  }

  lemma AdvanceCloses(cfg: Config, s: State, pid: nat, ok: bool, pick: Pick, c: nat)
    requires Closed(s, c) && pid < |s.procs| && Prompt(s, Advance(pid, ok, pick))
    ensures var t := Step(cfg, s, Advance(pid, ok, pick));
            && Closed(t, c)
            && BothLeft(cfg, t, c) <= BothLeft(cfg, s, c)
            && (Useful(s, Advance(pid, ok, pick), c) ==> BothLeft(cfg, t, c) < BothLeft(cfg, s, c))
  {
    hide React, StepsLeft;
    var p, sh, ended := s.procs[pid], s.shared, s.procs[0].point.Ended?;
    var e := React(cfg, p, sh, ended, ok, pick);
    ReactShrinks(cfg, p, sh, ended, ok, pick);
    FewerEventsLeft(cfg, s.procs[0], sh, e.shared);
    FewerEventsLeft(cfg, s.procs[c], sh, e.shared);
    if (pid == 0 || pid == c) && !p.point.Ended? && (p.point.Waiting? ==> ended) {
      ReactFalls(cfg, p, sh, ended, ok, pick);
    }
    if pid == c || pid == 0 {
      if p.point.Ended? || (p.point.Waiting? && !ended) {
        assert p.(point := p.point) == p;
      }
    }
  }

  lemma OtherCloses(cfg: Config, s: State, a: Action, c: nat)
    requires Closed(s, c) && Prompt(s, a) && (a.Advance? ==> a.pid >= |s.procs|)
    ensures var t := Step(cfg, s, a); Closed(t, c) && BothLeft(cfg, t, c) <= BothLeft(cfg, s, c)
  {
    hide StepsLeft;
    var t := Step(cfg, s, a);
    FewerEventsLeft(cfg, s.procs[0], s.shared, t.shared);
    FewerEventsLeft(cfg, s.procs[c], s.shared, t.shared);
  }

  lemma StepCloses(cfg: Config, s: State, a: Action, c: nat)
    requires Closed(s, c) && Prompt(s, a)
    ensures var t := Step(cfg, s, a);
            && Closed(t, c)
            && BothLeft(cfg, t, c) <= BothLeft(cfg, s, c)
            && (Useful(s, a, c) ==> BothLeft(cfg, t, c) < BothLeft(cfg, s, c))
  {
    hide Step, StepsLeft, BothLeft;
    if a.Advance? && a.pid < |s.procs| {
      AdvanceCloses(cfg, s, a.pid, a.ok, a.pick, c);
    } else {
      OtherCloses(cfg, s, a, c);
    }
  }

  ghost predicate PromptRun(cfg: Config, s: State, actions: seq<Action>)
    decreases |actions|
  {
    actions == [] || (Prompt(s, actions[0]) && PromptRun(cfg, Step(cfg, s, actions[0]), actions[1..]))
  }

  ghost function UsefulSteps(cfg: Config, s: State, actions: seq<Action>, c: nat): nat
    decreases |actions|
  {
    if actions == [] || !(0 < c < |s.procs|) then 0
    else (if Useful(s, actions[0], c) then 1 else 0) + UsefulSteps(cfg, Step(cfg, s, actions[0]), actions[1..], c)
  }

  lemma {:induction false} ClosingRuns(cfg: Config, s: State, actions: seq<Action>, c: nat)
    requires Closed(s, c) && PromptRun(cfg, s, actions)
    ensures var t := Exec(cfg, s, actions);
            && Closed(t, c)
            && UsefulSteps(cfg, s, actions, c) <= BothLeft(cfg, s, c)
            && (UsefulSteps(cfg, s, actions, c) == BothLeft(cfg, s, c) ==> t.procs[c].point.Ended?)
    decreases |actions|
  {
    hide Step, Useful, Prompt;
    if actions == [] {
      EndedIffNothingLeft(cfg, s, c);
    } else {
      hide BothLeft;
      StepCloses(cfg, s, actions[0], c);
      ClosingRuns(cfg, Step(cfg, s, actions[0]), actions[1..], c);
    }
  }

  lemma EndedIffNothingLeft(cfg: Config, s: State, c: nat)
    requires Closed(s, c)
    ensures BothLeft(cfg, s, c) == 0 <==> s.procs[0].point.Ended? && s.procs[c].point.Ended?
  {}

  /** Until the closer has ended there is always a useful step to take, whatever the outside answers. */
  lemma NeverStuck(cfg: Config, s: State, c: nat, ok: bool)
    requires Closed(s, c) && !s.procs[c].point.Ended?
    ensures exists a :: Useful(s, a, c) && Prompt(s, a)
  {
    var pid := if s.procs[0].point.Ended? then c else 0;
    var a := Advance(pid, ok, OnDone);
    assert Useful(s, a, c) && Prompt(s, a);
  }

  lemma {:induction false} WorkerStays(cfg: Config, s: State, actions: seq<Action>)
    requires |s.procs| > 0 && s.procs[0].role == Worker && !s.procs[0].point.Waiting?
    ensures var t := Exec(cfg, s, actions); |t.procs| > 0 && t.procs[0].role == Worker && !t.procs[0].point.Waiting?
    decreases |actions|
  {
    hide React;
    if actions != [] {
      var a := actions[0];
      if a.Advance? && a.pid < |s.procs| {
        ReactShrinks(cfg, s.procs[a.pid], s.shared, s.procs[0].point.Ended?, a.ok, a.pick);
      }
      WorkerStays(cfg, Step(cfg, s, a), actions[1..]);
    }
  }

  lemma CloseCloses(cfg: Config, s: State)
    requires !s.shared.done && |s.procs| > 0 && s.procs[0].role == Worker && !s.procs[0].point.Waiting?
    ensures Closed(Step(cfg, s, Close), |s.procs|)
  {}

  /** Close returns: in every run after it with no further `Track`, in which the worker answers the
      shutdown when idle, at most `BothLeft` steps of worker and closer are useful, one always is until
      the closer has ended, and when all are used up it has; then the buffer is empty, and if no other
      flush is under way every event ever tracked has been stored, dead-lettered or lost. */
  lemma CloseReturns(cfg: Config, before: seq<Action>, during: seq<Action>)
    requires Retries(cfg) >= 0 && !Exec(cfg, Init(), before).shared.done
    requires PromptRun(cfg, Step(cfg, Exec(cfg, Init(), before), Close), during)
    ensures var s := Exec(cfg, Init(), before);
            var closed, c := Step(cfg, s, Close), |s.procs|;
            var t := Exec(cfg, closed, during);
            && 0 < c < |closed.procs| && c < |t.procs|
            && UsefulSteps(cfg, closed, during, c) <= BothLeft(cfg, closed, c)
            && (!t.procs[c].point.Ended? ==> exists a :: Useful(t, a, c) && Prompt(t, a))
            && (UsefulSteps(cfg, closed, during, c) == BothLeft(cfg, closed, c) ==>
                  && t.procs[c].point.Ended? && t.shared.buffer == []
                  && ((forall i :: 0 <= i < |t.procs| ==> Batch(t.procs[i].point) == []) ==>
                        t.tracked == t.stored + t.dead + t.lost))
  {
    var s := Exec(cfg, Init(), before);
    var c := |s.procs|;
    WorkerStays(cfg, Init(), before);
    CloseCloses(cfg, s);
    var closed := Step(cfg, s, Close);
    NoTracks(cfg, closed, during);
    hide Exec, Step, PromptRun, UsefulSteps, BothLeft;
    ClosingRuns(cfg, closed, during, c);
    CloseDrains(cfg, before, during);
    CloseStarts(cfg, s);
    ClosingRun(cfg, closed, during, c);
    var t := Exec(cfg, closed, during);
    if !t.procs[c].point.Ended? {
      NeverStuck(cfg, t, c, true);
    }
  }

  lemma {:induction false} NoTracks(cfg: Config, s: State, actions: seq<Action>)
    requires PromptRun(cfg, s, actions)
    ensures forall i :: 0 <= i < |actions| ==> !actions[i].Track?
    decreases |actions|
  {
    hide Step;
    if actions != [] {
      NoTracks(cfg, Step(cfg, s, actions[0]), actions[1..]);
    }
  }

  // ---------------------------------------------------------------- what wakes the worker

  /** The last step of the closer closes the dead-letter file. */
  lemma SealingCloses(cfg: Config, p: Proc, sh: Shared, workerEnded: bool, ok: bool, pick: Pick)
    requires p.point.Sealing?
    ensures React(cfg, p, sh, workerEnded, ok, pick) == Move(Ended, sh.(fileOpen := false))
  {}

  lemma {:induction false} OthersMove(cfg: Config, s: State, actions: seq<Action>, pid: nat)
    requires pid < |s.procs| && forall i :: 0 <= i < |actions| && actions[i].Advance? ==> actions[i].pid != pid
    ensures var t := Exec(cfg, s, actions); pid < |t.procs| && t.procs[pid] == s.procs[pid]
    decreases |actions|
  {
    hide React;
    if actions != [] {
      OthersMove(cfg, Step(cfg, s, actions[0]), actions[1..], pid);
    }
  }

  /** On a tick, or on a pending signal, which it takes, the idle worker goes on to flush: whatever others
      track or flush in between, its next step leaves the buffer empty, holding what was in it. */
  lemma WakingFlushes(cfg: Config, s: State, pick: Pick, ok: bool, between: seq<Action>, ok': bool, pick': Pick)
    requires |s.procs| > 0 && s.procs[0] == Proc(Worker, Idle)
    requires pick == OnTick || (pick == OnSignal && s.shared.signal)
    requires forall i :: 0 <= i < |between| && between[i].Advance? ==> between[i].pid != 0
    ensures var awake := Step(cfg, s, Advance(0, ok, pick));
            var u := Exec(cfg, awake, between);
            var t := Step(cfg, u, Advance(0, ok', pick'));
            && awake.shared == (if pick == OnSignal then s.shared.(signal := false) else s.shared)
            && |u.procs| > 0 && |t.procs| > 0 && t.shared.buffer == []
            && t.procs[0].point == (if u.shared.buffer == [] then Idle else Collecting(u.shared.buffer))
  {
    var awake := Step(cfg, s, Advance(0, ok, pick));
    assert awake.procs[0] == Proc(Worker, Swapping);
    OthersMove(cfg, awake, between, 0);
  }
}
