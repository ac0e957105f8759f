/** The billing webhook sender: the retry loop of one delivery, and the bounded queue with its worker
    and the drain on close, as a step system. */
module Webhook {
  import opened Common

  const CAPACITY: nat := 100

  datatype Config = Config(enabled: bool, url: string, maxRetries: int, retryDelay: nat)

  predicate On(cfg: Config) {
    cfg.enabled && cfg.url != ""
  }

  datatype Event = Event(id: string, timestamp: int, payload: string)

  /** An event as it is posted: with an id and a timestamp, both taken from the clock if missing. */
  function Stamped(e: Event, clockId: string, now: int): (r: Event)
    ensures r.payload == e.payload
    ensures r.id == e.id || (e.id == "" && r.id == clockId)
    ensures r.timestamp == e.timestamp || (e.timestamp == ZERO_TIME && r.timestamp == now)
    ensures clockId != "" ==> r.id != ""
    ensures now != ZERO_TIME ==> r.timestamp != ZERO_TIME
  {
    e.(id := if e.id == "" then clockId else e.id, timestamp := if e.timestamp == ZERO_TIME then now else e.timestamp)
  }

  function Repeated(e: Event, n: nat): (s: seq<Event>)
    ensures |s| == n && forall i :: 0 <= i < n ==> s[i] == e
  {
    seq(n, i => e)
  }

  lemma RepeatedSteps(e: Event, n: nat, before: seq<Event>)
    ensures before + Repeated(e, n) + [e] == before + Repeated(e, n + 1) && before + Repeated(e, 0) == before
  {
    assert Repeated(e, n) + [e] == Repeated(e, n + 1);
  }

  lemma PowSteps(base: nat, k: nat)
    ensures base * Pow2(k + 1) == 2 * (base * Pow2(k)) && base * Pow2(0) == base
  {
    assert Pow2(k + 1) == 2 * Pow2(k);
  }

  datatype Outcome = Delivered | Cancelled | Failed | Skipped

  class Sender {
    const cfg: Config
    /** Every post made, in order. */
    var posts: seq<Event>

    constructor (cfg: Config)
      ensures this.cfg == cfg && posts == []
    {
      this.cfg := cfg;
      posts := [];
    }

    method SendOnce(e: Event, accepts: bool) returns (ok: bool)
      modifies this
      ensures posts == old(posts) + [e] && ok == accepts
    {
      posts := posts + [e];
      ok := accepts;
    }

    /** `accepts(i)` is the endpoint's answer to try `i`, `cancelled(i)` whether the context ends while
        waiting before it. Tries stop at the first success; there is at least one and at most one more
        than the retry count, and all post the same stamped event. */
    method Send(e: Event, clockId: string, now: int, accepts: nat -> bool, cancelled: nat -> bool)
      returns (r: Outcome, tries: nat, waited: nat)
      modifies this
      ensures posts == old(posts) + Repeated(Stamped(e, clockId, now), tries)
      ensures r == Skipped <==> !On(cfg)
      ensures !On(cfg) || cfg.maxRetries < 0 ==> tries == 0
      ensures On(cfg) && cfg.maxRetries >= 0 ==> 1 <= tries <= cfg.maxRetries + 1
      ensures forall i: nat :: i + 1 < tries ==> !accepts(i)
      ensures forall i: nat :: 0 < i < tries ==> !cancelled(i)
      ensures r == Delivered ==> tries > 0 && accepts(tries - 1)
      ensures r != Delivered && tries > 0 ==> !accepts(tries - 1)
      ensures r == Cancelled ==> 0 < tries <= cfg.maxRetries && cancelled(tries)
      ensures tries > 0 ==> waited == cfg.retryDelay * Pow2(tries - 1) - cfg.retryDelay
      ensures r == Failed ==> tries == if cfg.maxRetries < 0 then 0 else cfg.maxRetries + 1
    {
      hide Repeated, Stamped, Pow2;
      tries, waited := 0, 0;
      RepeatedSteps(Stamped(e, clockId, now), 0, posts);
      PowSteps(cfg.retryDelay, 0);
      if !cfg.enabled || cfg.url == "" {
        return Skipped, 0, 0;
      }
      var event := Stamped(e, clockId, now);
      var delay := cfg.retryDelay;
      while tries <= cfg.maxRetries
        invariant cfg.maxRetries < 0 ==> tries == 0
        invariant cfg.maxRetries >= 0 ==> tries <= cfg.maxRetries + 1
        invariant posts == old(posts) + Repeated(event, tries)
        invariant forall i: nat :: i < tries ==> !accepts(i)
        invariant forall i: nat :: 0 < i < tries ==> !cancelled(i)
        invariant delay == cfg.retryDelay * Pow2(if tries == 0 then 0 else tries - 1)
        invariant waited == delay - cfg.retryDelay
        decreases cfg.maxRetries - tries
      {
        if tries > 0 {
          if cancelled(tries) {
            return Cancelled, tries, waited;
          }
          PowSteps(cfg.retryDelay, tries - 1);
          waited := waited + delay;
          delay := delay * 2;
        }
        var ok := SendOnce(event, accepts(tries));
        RepeatedSteps(event, tries, old(posts));
        tries := tries + 1;
        if ok {
          return Delivered, tries, waited;
        }
      }
      r := Failed;
    }
  }

  // ---------------------------------------------------------------- the queue and its worker

  datatype Worker = Selecting | Sending(event: Event, draining: bool) | Draining | Exited

  /** `offered`, `accepted`, `dropped` and `attempted` are histories, oldest first. */
  datatype Queue = Queue(queued: seq<Event>, worker: Worker, closed: bool, offered: seq<Event>,
                         accepted: seq<Event>, dropped: seq<Event>, attempted: seq<Event>)

  function Init(): Queue {
    Queue([], Selecting, false, [], [], [], [])
  }

  /** `Work` is one step of the worker; `done` says that its `select` prefers the closed channel when
      an event is ready too. */
  datatype Action = SendAsync(event: Event) | Close | Work(done: bool)

  function Take(q: Queue, draining: bool): Queue
    requires q.queued != []
  {
    q.(queued := q.queued[1..], worker := Sending(q.queued[0], draining))
  }

  function Step(q: Queue, a: Action): Queue {
    match a
    case SendAsync(e) =>
      var o := q.(offered := q.offered + [e]);
      if |q.queued| < CAPACITY then o.(queued := q.queued + [e], accepted := q.accepted + [e])
      else o.(dropped := q.dropped + [e])
    case Close => q.(closed := true)
    case Work(done) =>
      match q.worker
      case Selecting =>
        if q.closed && (done || q.queued == []) then q.(worker := Draining)
        else if q.queued != [] then Take(q, false)
        else q
      case Sending(e, draining) =>
        q.(worker := if draining then Draining else Selecting, attempted := q.attempted + [e])
      case Draining => if q.queued == [] then q.(worker := Exited) else Take(q, true)
      case Exited => q
  }

  function Run(q: Queue, actions: seq<Action>): Queue
    decreases |actions|
  {
    if actions == [] then q else Run(Step(q, actions[0]), actions[1..])
  }

  function InHand(w: Worker): seq<Event> {
    if w.Sending? then [w.event] else []
  }

  /** The accepted events are, in order, those attempted, the one in hand and those queued; with the
      dropped ones they are all that were offered. */
  ghost predicate Accounted(q: Queue) {
    && q.accepted == q.attempted + InHand(q.worker) + q.queued
    && multiset(q.offered) == multiset(q.accepted) + multiset(q.dropped)
    && |q.queued| <= CAPACITY
    && (q.worker.Draining? || q.worker.Exited? || (q.worker.Sending? && q.worker.draining) ==> q.closed)
  }

  lemma TakeKeepsOrder(q: Queue, draining: bool)
    requires q.queued != [] && !q.worker.Sending?
    ensures var t := Take(q, draining);
            q.attempted + InHand(q.worker) + q.queued == t.attempted + InHand(t.worker) + t.queued
  {
    assert q.queued == [q.queued[0]] + q.queued[1..];
  }

  lemma SendAccounted(q: Queue, e: Event)
    requires Accounted(q)
    ensures Accounted(Step(q, SendAsync(e)))
  {
    hide InHand;
    var done := q.attempted + InHand(q.worker);
    assert done + q.queued + [e] == done + (q.queued + [e]);
    var (o, x, d) := (multiset(q.offered), multiset(q.accepted), multiset(q.dropped));
    assert o + multiset{e} == (x + multiset{e}) + d == x + (d + multiset{e});
  }

  lemma WorkAccounted(q: Queue, done: bool)
    requires Accounted(q)
    ensures Accounted(Step(q, Work(done)))
  {
    if q.worker.Sending? {
      assert q.attempted + [q.worker.event] + q.queued == (q.attempted + [q.worker.event]) + [] + q.queued;
    } else if q.queued != [] {
      TakeKeepsOrder(q, q.worker.Draining?);
    }
  }

  lemma AccountedStep(q: Queue, a: Action)
    requires Accounted(q)
    ensures Accounted(Step(q, a))
  {
    match a
    case SendAsync(e) => SendAccounted(q, e);
    case Work(done) => WorkAccounted(q, done);
    case Close =>
  }

  /** Over every run nothing accepted is lost, duplicated or reordered. */
  lemma {:induction false} QueueAccounts(q: Queue, actions: seq<Action>)
    requires Accounted(q)
    ensures Accounted(Run(q, actions))
    decreases |actions|
  {
    hide Step, Accounted;
    if actions != [] {
      AccountedStep(q, actions[0]);
      QueueAccounts(Step(q, actions[0]), actions[1..]);
    }
  }

  /** An event is dropped exactly when as many accepted events as the queue holds still wait, not
      counting the one in hand. */
  lemma DroppedOnlyWhenFull(actions: seq<Action>, a: Action)
    ensures var q := Run(Init(), actions);
            Step(q, a).dropped != q.dropped <==>
            a.SendAsync? && |q.accepted| - |q.attempted| - |InHand(q.worker)| == 100
  {
    hide Run;
    QueueAccounts(Init(), actions);
    var q := Run(Init(), actions);
    if a.SendAsync? {
      assert |q.accepted| == |q.attempted| + |InHand(q.worker)| + |q.queued|;
    }
  }

  // ---------------------------------------------------------------- closing

  /** Worker steps left before it returns, once closed. */
  function Left(q: Queue): nat {
    2 * |q.queued| +
    match q.worker
    case Selecting => 2
    case Sending(_, draining) => if draining then 2 else 3
    case Draining => 1
    case Exited => 0
  }

  predicate NoSends(actions: seq<Action>) {
    forall i :: 0 <= i < |actions| ==> !actions[i].SendAsync?
  }

  function WorkSteps(actions: seq<Action>): nat {
    if actions == [] then 0 else (if actions[0].Work? then 1 else 0) + WorkSteps(actions[1..])
  }

  /** A worker that has returned left nothing behind, and returns when the steps left run out. */
  ghost predicate Drained(q: Queue) {
    q.closed && Accounted(q) && (q.worker.Exited? ==> q.queued == [])
  }

  lemma DrainWork(q: Queue, done: bool)
    requires q.closed && (q.worker.Exited? ==> q.queued == [])
    ensures var t := Step(q, Work(done));
            && t.closed && (t.worker.Exited? ==> t.queued == []) && t.accepted == q.accepted
            && (Left(q) > 0 ==> Left(t) < Left(q)) && (Left(q) == 0 ==> t == q)
  {
    if q.worker.Selecting? {
      assert q.queued != [] ==> Left(Take(q, false)) == Left(q) - 1;
    } else if q.worker.Draining? {
      assert q.queued != [] ==> Left(Take(q, true)) == Left(q) - 1;
    }
  }

  lemma DrainStep(q: Queue, a: Action)
    requires Drained(q) && !a.SendAsync?
    ensures Drained(Step(q, a))
    ensures Step(q, a).accepted == q.accepted && Left(Step(q, a)) <= Left(q)
    ensures a.Work? && Left(q) > 0 ==> Left(Step(q, a)) < Left(q)
  {
    AccountedStep(q, a);
    hide Accounted;
    if a.Work? {
      hide Step, Left;
      DrainWork(q, a.done);
    }
  }

  lemma {:induction false} DrainRun(q: Queue, actions: seq<Action>)
    requires Drained(q) && NoSends(actions)
    ensures var t := Run(q, actions);
            && t.accepted == q.accepted
            && (WorkSteps(actions) >= Left(q) ==> t.worker.Exited?)
            && (t.worker.Exited? ==> t.attempted == t.accepted)
    decreases |actions|
  {
    if actions == [] {
      assert q.worker.Exited? ==> q.attempted + [] + [] == q.attempted;
    } else {
      hide Accounted, Step;
      DrainStep(q, actions[0]);
      DrainRun(Step(q, actions[0]), actions[1..]);
    }
  }

  /** Close returns and leaves nothing unattempted: once closed, with no later `SendAsync`, the worker
      returns after at most `Left` of its own steps, whichever ready channel its `select` picks, and
      then every accepted event was attempted, in acceptance order. */
  lemma CloseDrains(before: seq<Action>, during: seq<Action>)
    requires !Run(Init(), before).closed && NoSends(during)
    ensures var q := Run(Init(), before);
            var t := Run(Step(q, Close), during);
            && t.accepted == q.accepted
            && (WorkSteps(during) >= Left(q) ==> t.worker.Exited?)
            && (t.worker.Exited? ==> t.attempted == q.accepted)
  {
    hide Run;
    QueueAccounts(Init(), before);
    var q := Run(Init(), before);
    AccountedStep(q, Close);
    DrainRun(Step(q, Close), during);
  }

  // ---------------------------------------------------------------- delivery goes on

  /** Worker steps until the first `n` accepted events have been attempted, at most. */
  function Behind(q: Queue, n: nat): int {
    var waiting := n - |q.attempted| - |InHand(q.worker)|;
    2 * waiting + |InHand(q.worker)| + if q.worker.Selecting? || (q.worker.Sending? && !q.worker.draining) then 1 else 0
  }

  lemma WorkCatchesUp(q: Queue, done: bool, n: nat)
    requires Accounted(q) && |q.attempted| < n <= |q.accepted| && !q.worker.Exited?
    ensures var t := Step(q, Work(done)); |t.attempted| >= n || (Behind(t, n) < Behind(q, n) && !t.worker.Exited?)
    ensures Behind(q, n) > 0
  {
    assert |q.accepted| == |q.attempted| + |InHand(q.worker)| + |q.queued|;
  }

  lemma OthersKeepPace(q: Queue, a: Action, n: nat)
    requires !a.Work?
    ensures Behind(Step(q, a), n) == Behind(q, n) && Step(q, a).attempted == q.attempted
    ensures |Step(q, a).accepted| >= |q.accepted| && Step(q, a).worker == q.worker
  {}

  lemma {:induction false} CatchUp(q: Queue, actions: seq<Action>, n: nat)
    requires Accounted(q) && n <= |q.accepted| && (q.worker.Exited? ==> |q.attempted| >= n)
    ensures |q.attempted| >= n || WorkSteps(actions) >= Behind(q, n) ==> |Run(q, actions).attempted| >= n
    decreases |actions|
  {
    if actions != [] {
      var a := actions[0];
      AccountedStep(q, a);
      if |q.attempted| < n {
        if a.Work? {
          WorkCatchesUp(q, a.done, n);
        } else {
          OthersKeepPace(q, a, n);
        }
      }
      KeepsHistory(q, a);
      hide Accounted, Step, Behind;
      CatchUp(Step(q, a), actions[1..], n);
    } else if |q.attempted| < n {
      WorkCatchesUp(q, true, n);
    }
  }

  lemma KeepsHistory(q: Queue, a: Action)
    ensures q.accepted <= Step(q, a).accepted && q.attempted <= Step(q, a).attempted
  {}

  lemma {:induction false} HistoriesGrow(q: Queue, actions: seq<Action>)
    ensures q.accepted <= Run(q, actions).accepted
    decreases |actions|
  {
    hide Step;
    if actions != [] {
      KeepsHistory(q, actions[0]);
      HistoriesGrow(Step(q, actions[0]), actions[1..]);
    }
  }

  /** Delivery goes on, closed or not: whatever is sent meanwhile, after at most two worker steps for each
      event waiting and two more, every event accepted so far has been attempted, in acceptance order. */
  lemma AcceptedIsAttempted(before: seq<Action>, actions: seq<Action>)
    requires !Run(Init(), before).worker.Exited?
    requires WorkSteps(actions) >= 2 * |Run(Init(), before).queued| + 2
    ensures Run(Init(), before).accepted <= Run(Run(Init(), before), actions).attempted
  {
    hide Run, WorkSteps;
    var q := Run(Init(), before);
    QueueAccounts(Init(), before);
    var n := |q.accepted|;
    assert n == |q.attempted| + |InHand(q.worker)| + |q.queued|;
    CatchUp(q, actions, n);
    QueueAccounts(q, actions);
    HistoriesGrow(q, actions);
    var t := Run(q, actions);
    assert t.accepted[..n] == t.attempted[..n];
  }

  lemma {:induction false} ExitedRun(q: Queue, actions: seq<Action>)
    requires Accounted(q) && q.worker.Exited?
    ensures var t := Run(q, actions);
            t.attempted == q.attempted && t.worker.Exited? && q.queued <= t.queued && Accounted(t)
    decreases |actions|
  {
    if actions != [] {
      AccountedStep(q, actions[0]);
      hide Accounted;
      ExitedRun(Step(q, actions[0]), actions[1..]);
    }
  }

  /** The worker returns only with an empty queue and nothing in hand: whatever was accepted by then,
      also during the drain, has been attempted. */
  lemma ReturnsWithNothingLeft(before: seq<Action>, a: Action)
    requires !Run(Init(), before).worker.Exited? && Step(Run(Init(), before), a).worker.Exited?
    ensures var q := Step(Run(Init(), before), a); q.attempted == q.accepted && q.queued == [] && q.closed
  {
    hide Run, Step;
    QueueAccounts(Init(), before);
    AccountedStep(Run(Init(), before), a);
    ExitStep(Run(Init(), before), a);
    var q := Step(Run(Init(), before), a);
    assert q.attempted + [] + [] == q.attempted;
  }

  lemma ExitStep(q: Queue, a: Action)
    requires !q.worker.Exited? && Step(q, a).worker.Exited?
    ensures Step(q, a).queued == []
  {}

  lemma {:induction false} RunConcat(q: Queue, a: seq<Action>, b: seq<Action>)
    ensures Run(q, a + b) == Run(Run(q, a), b)
    decreases |a|
  {
    hide Step;
    if a == [] {
      assert a + b == b;
    } else {
      assert (a + b)[1..] == a[1..] + b;
      RunConcat(Step(q, a[0]), a[1..], b);
    }
  }

  lemma RunLast(q: Queue, actions: seq<Action>, i: nat)
    requires i < |actions|
    ensures Run(q, actions[..i + 1]) == Step(Run(q, actions[..i]), actions[i])
  {
    hide Step;
    assert actions[..i + 1] == actions[..i] + [actions[i]];
    RunConcat(q, actions[..i], [actions[i]]);
    assert [actions[i]][1..] == [];
  }

  /** The step on which the worker returned. */
  lemma {:induction false} ReturnStep(actions: seq<Action>, n: nat) returns (i: nat)
    requires n <= |actions| && Run(Init(), actions[..n]).worker.Exited?
    ensures i < n && !Run(Init(), actions[..i]).worker.Exited? && Run(Init(), actions[..i + 1]).worker.Exited?
    decreases n
  {
    assert n > 0;
    if Run(Init(), actions[..n - 1]).worker.Exited? {
      i := ReturnStep(actions, n - 1);
    } else {
      i := n - 1;
    }
  }

  /** In every run in which the worker has returned, what was accepted up to its return is exactly what
      was attempted, and what was accepted after it is exactly what waits and never will be. */
  lemma StrandedAfterExit(actions: seq<Action>) returns (i: nat)
    requires Run(Init(), actions).worker.Exited?
    ensures i < |actions| && !Run(Init(), actions[..i]).worker.Exited? && Run(Init(), actions[..i + 1]).worker.Exited?
    ensures var q, t := Run(Init(), actions[..i + 1]), Run(Init(), actions);
            && t.attempted == q.accepted && q.accepted <= t.accepted
            && t.queued == t.accepted[|q.accepted|..]
  {
    hide Step;
    assert actions[..|actions|] == actions;
    i := ReturnStep(actions, |actions|);
    RunLast(Init(), actions, i);
    hide Run;
    ReturnsWithNothingLeft(actions[..i], actions[i]);
    var q := Run(Init(), actions[..i + 1]);
    assert actions == actions[..i + 1] + actions[i + 1..];
    RunConcat(Init(), actions[..i + 1], actions[i + 1..]);
    QueueAccounts(Init(), actions[..i + 1]);
    ExitedRun(q, actions[i + 1..]);
    var t := Run(Init(), actions);
    assert t.accepted == t.attempted + t.queued;
  }
}
