/** One tracker used by one goroutine: the buffer, the flush with its retry loop, and the dead-letter
    loop, updated in place. A flush that nothing interrupts is shown to be a run of the step system in
    `Tracker`, so what that system keeps holds of these loops too. */
module TrackerFlush {
  import opened Common
  import opened UsageStore
  import T = Tracker

  /** Outcomes of the external calls made during one flush: the i-th store attempt, opening the
      dead-letter file, and writing the i-th event to it. */
  datatype Outcomes = Outcomes(store: nat -> bool, open: bool, write: nat -> bool)

  ghost predicate StoreWorks(retries: int, store: nat -> bool, failures: nat) {
    exists i: nat :: failures <= i <= retries && store(i)
  }

  /** The events whose write succeeds (or fails), the first of the batch being write number `k`. */
  function Written(batch: seq<Event>, k: nat, write: nat -> bool, keep: bool): seq<Event> {
    if batch == [] then []
    else (if write(k) == keep then [batch[0]] else []) + Written(batch[1..], k + 1, write, keep)
  }

  lemma OneWritten(e: Event, k: nat, write: nat -> bool, keep: bool)
    ensures Written([e], k, write, keep) == if write(k) == keep then [e] else []
  {
    assert [e][1..] == [];
  }

  lemma {:induction false} WrittenAppend(batch: seq<Event>, e: Event, k: nat, write: nat -> bool, keep: bool)
    ensures Written(batch + [e], k, write, keep)
         == Written(batch, k, write, keep) + if write(k + |batch|) == keep then [e] else []
  {
    var last := if write(k + |batch|) == keep then [e] else [];
    if batch == [] {
      OneWritten(e, k, write, keep);
      assert [] + [e] == [e];
    } else {
      assert (batch + [e])[1..] == batch[1..] + [e];
      WrittenAppend(batch[1..], e, k + 1, write, keep);
      var first := if write(k) == keep then [batch[0]] else [];
      assert first + (Written(batch[1..], k + 1, write, keep) + last)
          == first + Written(batch[1..], k + 1, write, keep) + last;
    }
  }

  /** Where the events of a non-empty flush end up. */
  datatype Destination = Destination(stored: seq<Event>, dead: seq<Event>, lost: seq<Event>)

  ghost function Destined(retries: int, batch: seq<Event>, fileOpen: bool, o: Outcomes): Destination {
    if retries < 0 then Destination([], [], [])
    else if StoreWorks(retries, o.store, 0) then Destination(batch, [], [])
    else DeadLettered(batch, fileOpen, o)
  }

  function DeadLettered(batch: seq<Event>, fileOpen: bool, o: Outcomes): Destination {
    if !fileOpen && !o.open then Destination([], [], batch)
    else Destination([], Written(batch, 0, o.write, true), Written(batch, 0, o.write, false))
  }

  /** Whether the flush leaves the dead-letter file open. */
  ghost predicate OpensFile(retries: int, o: Outcomes) {
    retries >= 0 && !StoreWorks(retries, o.store, 0) && o.open
  }

  /** An event with its id and timestamp, kept where given. */
  function Completed(e: Event, freshId: string, now: int): (r: Event)
    ensures r.(id := e.id, timestamp := e.timestamp) == e
    ensures freshId != "" && now != ZERO_TIME ==> r.id != "" && r.timestamp != ZERO_TIME
    ensures e.id != "" && e.timestamp != ZERO_TIME ==> r == e
  {
    e.(id := if e.id == "" then freshId else e.id, timestamp := if e.timestamp == ZERO_TIME then now else e.timestamp)
  }

  class DefaultTracker {
    const cfg: T.Config
    const retryDelay: nat
    const store: MemoryStore
    var buffer: seq<Event>
    var retry: seq<Event>
    var signal: bool
    var fileOpen: bool
    var dead: seq<Event>

    constructor (cfg: T.Config, retryDelay: nat, store: MemoryStore)
      ensures this.cfg == cfg && this.retryDelay == retryDelay && this.store == store
      ensures buffer == [] && retry == [] && !signal && !fileOpen && dead == []
    {
      this.cfg, this.retryDelay, this.store := cfg, retryDelay, store;
      buffer, retry, signal, fileOpen, dead := [], [], false, false, [];
    }

    /** `freshId` and `now` are used where the event has no id or no timestamp. */
    method Track(e: Event, freshId: string, now: int)
      modifies this
      ensures buffer == old(buffer) + [Completed(e, freshId, now)]
      ensures signal == (old(signal) || |buffer| >= cfg.bufferSize)
      ensures retry == old(retry) && fileOpen == old(fileOpen) && dead == old(dead)
    {
      var event := e;
      if event.id == "" {
        event := event.(id := freshId);
      }
      if event.timestamp == ZERO_TIME {
        event := event.(timestamp := now);
      }
      buffer := buffer + [event];
      if |buffer| >= cfg.bufferSize {
        signal := true;
      }
    }

    /** Tries until the first success, at most one more time than the retry count; the waits between
        the tries double, so together they are the base delay times one less than a power of two. */
    method StoreWithRetry(es: seq<Event>, works: nat -> bool) returns (failed: bool, attempts: nat, waited: nat)
      modifies store
      ensures failed <==> T.Retries(cfg) >= 0 && !StoreWorks(T.Retries(cfg), works, 0)
      ensures T.Retries(cfg) < 0 ==> attempts == 0
      ensures T.Retries(cfg) >= 0 ==> 1 <= attempts <= T.Retries(cfg) + 1
      ensures forall i: nat :: i + 1 < attempts ==> !works(i)
      ensures failed ==> attempts == if cfg.maxRetries == 0 then 4 else cfg.maxRetries + 1
      ensures !failed && attempts > 0 ==> works(attempts - 1)
      ensures store.events == old(store.events) + if failed || T.Retries(cfg) < 0 then [] else es
      ensures attempts > 0 ==> waited == (if retryDelay == 0 then 1_000_000_000
                                          else retryDelay) * (Pow2(attempts - 1) - 1)
    {
      var base := if retryDelay == 0 then 1_000_000_000 else retryDelay;
      var delay := base;
      var max := T.Retries(cfg);
      attempts, waited, failed := 0, 0, false;
      while attempts <= max
        invariant 0 <= attempts && (max >= 0 ==> attempts <= max + 1) && (max < 0 ==> attempts == 0)
        invariant store.events == old(store.events)
        invariant forall i: nat :: i < attempts ==> !works(i)
        invariant failed == (attempts > 0)
        invariant delay == base * Pow2(if attempts == 0 then 0 else attempts - 1)
        invariant waited == delay - base
        decreases max - attempts
      {
        if attempts > 0 {
          waited := waited + delay;
          delay := delay * 2;
        }
        attempts := attempts + 1;
        if works(attempts - 1) {
          store.Store(es);
          return false, attempts, waited;
        }
        failed := true;
      }
    }

    /** Appends to the dead-letter file the events whose write succeeds, in order. */
    method SendToDLQ(es: seq<Event>, open: bool, write: nat -> bool)
      modifies this
      ensures buffer == old(buffer) && retry == old(retry) && signal == old(signal)
      ensures fileOpen == (old(fileOpen) || (es != [] && open))
      ensures dead == old(dead) + if fileOpen then Written(es, 0, write, true) else []
    {
      if es == [] {
        return;
      }
      if !fileOpen {
        if !open {
          return;
        }
        fileOpen := true;
      }
      for i := 0 to |es|
        invariant dead == old(dead) + Written(es[..i], 0, write, true)
        invariant fileOpen && buffer == old(buffer) && retry == old(retry) && signal == old(signal)
      {
        assert es[..i + 1] == es[..i] + [es[i]];
        WrittenAppend(es[..i], es[i], 0, write, true);
        if write(i) {
          dead := dead + [es[i]];
        }
      }
      assert es[..|es|] == es;
    }

    method Flush(o: Outcomes)
      modifies this, store
      ensures buffer == [] && signal == old(signal)
      ensures old(buffer) == [] ==>
                retry == old(retry) && store.events == old(store.events) && dead == old(dead)
                    && fileOpen == old(fileOpen)
      ensures old(buffer) != [] ==>
                var d := Destined(T.Retries(cfg), old(retry) + old(buffer), old(fileOpen), o);
                && retry == [] && store.events == old(store.events) + d.stored && dead == old(dead) + d.dead
                && fileOpen == (old(fileOpen) || OpensFile(T.Retries(cfg), o))
    {
      if |buffer| == 0 {
        return;
      }
      var es := buffer;
      buffer := [];
      if |retry| > 0 {
        es := retry + es;
        retry := [];
      }
      assert es == old(retry) + old(buffer);
      var failed, _, _ := StoreWithRetry(es, o.store);
      if failed {
        SendToDLQ(es, o.open, o.write);
      }
    }

    /** A query flushes first: while the store accepts, it sees every event tracked before it. */
    method Query(p: Params, o: Outcomes) returns (r: seq<Event>)
      requires retry == []
      modifies this, store
      ensures retry == [] && buffer == []
      ensures T.Retries(cfg) >= 0 && StoreWorks(T.Retries(cfg), o.store, 0) ==>
                r == Page(store.sort(Matching(old(store.events) + old(buffer), p)), p.offset, p.limit)
    {
      Flush(o);
      assert old(retry) + old(buffer) == old(buffer);
      assert old(store.events) + [] == old(store.events);
      r := store.Query(p);
    }
  }

  // ---------------------------------------------------------------- the flush as a run of steps

  /** Only process `pid` moves. */
  ghost predicate Only(actions: seq<T.Action>, pid: nat) {
    forall i :: 0 <= i < |actions| ==> actions[i].Advance? && actions[i].pid == pid
  }

  function Act(pid: nat, ok: bool): T.Action {
    T.Advance(pid, ok, T.OnTick)
  }

  lemma ExecFirst(cfg: T.Config, s: T.State, a: T.Action, rest: seq<T.Action>)
    ensures T.Exec(cfg, s, [a] + rest) == T.Exec(cfg, T.Step(cfg, s, a), rest)
  {
    assert ([a] + rest)[1..] == rest;
  }

  function Joined(a: Destination, b: Destination): Destination {
    Destination(a.stored + b.stored, a.dead + b.dead, a.lost + b.lost)
  }

  /** The state in which process `pid` has handed over the events of `d` and stands at `point`. */
  ghost function Moved(s: T.State, pid: nat, point: T.Point, sh: T.Shared, d: Destination): T.State
    requires pid < |s.procs|
  {
    T.Apply(s, pid, T.Effect(point, sh, d.stored, d.dead, d.lost))
  }

  lemma MovedTwice(s: T.State, pid: nat, p: T.Point, sh: T.Shared, d: Destination,
                   p': T.Point, sh': T.Shared, d': Destination)
    requires pid < |s.procs|
    ensures Moved(Moved(s, pid, p, sh, d), pid, p', sh', d') == Moved(s, pid, p', sh', Joined(d, d'))
  {
    SplitAdd(s.stored, d.stored, d'.stored);
    SplitAdd(s.dead, d.dead, d'.dead);
    SplitAdd(s.lost, d.lost, d'.lost);
  }

  lemma SplitAdd<X>(m: multiset<X>, a: seq<X>, b: seq<X>)
    ensures m + multiset(a) + multiset(b) == m + multiset(a + b)
  {
    assert multiset(a + b) == multiset(a) + multiset(b);
  }

  /** One more step in front of a run. */
  lemma Prefixed(cfg: T.Config, s: T.State, pid: nat, ok: bool, p: T.Point, sh: T.Shared, d: Destination,
                 rest: seq<T.Action>, sh': T.Shared, d': Destination)
    requires pid < |s.procs| && Only(rest, pid)
    requires T.Next(cfg, s, pid, ok, T.OnTick) == T.Effect(p, sh, d.stored, d.dead, d.lost)
    requires T.Exec(cfg, Moved(s, pid, p, sh, d), rest) == Moved(Moved(s, pid, p, sh, d), pid, T.Ended, sh', d')
    ensures Only([Act(pid, ok)] + rest, pid)
    ensures T.Exec(cfg, s, [Act(pid, ok)] + rest) == Moved(s, pid, T.Ended, sh', Joined(d, d'))
  {
    hide T.React, T.Exec, T.Next;
    var a := Act(pid, ok);
    ExecFirst(cfg, s, a, rest);
    assert T.Step(cfg, s, a) == Moved(s, pid, p, sh, d);
    MovedTwice(s, pid, p, sh, d, T.Ended, sh', d');
  }

  const NOTHING := Destination([], [], [])

  lemma JoinNothing(d: Destination)
    ensures Joined(NOTHING, d) == d && Joined(d, NOTHING) == d
  {}

  /** Writing the dead-letter entries one by one. */
  lemma {:induction false} WritingRun(cfg: T.Config, s: T.State, pid: nat, batch: seq<Event>, k: nat,
                                      write: nat -> bool)
    returns (actions: seq<T.Action>)
    requires pid < |s.procs| && s.procs[pid] == T.Proc(T.Caller, T.Encoding(batch))
    ensures Only(actions, pid)
    ensures T.Exec(cfg, s, actions)
         == Moved(s, pid, T.Ended, s.shared, Destination([], Written(batch, k, write, true),
                                                         Written(batch, k, write, false)))
    decreases |batch|
  {
    hide T.React, T.Exec, T.Next;
    var ok := write(k);
    WriteStep(cfg, s, pid, batch, ok);
    if batch == [] {
      actions := [Act(pid, ok)] + [];
      LastStep(cfg, s, pid, ok, s.shared, NOTHING);
    } else {
      var d := Destination([], if ok then [batch[0]] else [], if ok then [] else [batch[0]]);
      var d' := Destination([], Written(batch[1..], k + 1, write, true), Written(batch[1..], k + 1, write, false));
      var t := Moved(s, pid, T.Encoding(batch[1..]), s.shared, d);
      var rest := WritingRun(cfg, t, pid, batch[1..], k + 1, write);
      actions := [Act(pid, ok)] + rest;
      Prefixed(cfg, s, pid, ok, T.Encoding(batch[1..]), s.shared, d, rest, s.shared, d');
      assert Joined(d, d') == Destination([], Written(batch, k, write, true), Written(batch, k, write, false));
    }
  }

  lemma LastStep(cfg: T.Config, s: T.State, pid: nat, ok: bool, sh: T.Shared, d: Destination)
    requires pid < |s.procs|
    requires T.Next(cfg, s, pid, ok, T.OnTick) == T.Effect(T.Ended, sh, d.stored, d.dead, d.lost)
    ensures Only([Act(pid, ok)] + [], pid)
    ensures T.Exec(cfg, s, [Act(pid, ok)] + []) == Moved(s, pid, T.Ended, sh, d)
  {
    hide T.React, T.Next;
    ExecFirst(cfg, s, Act(pid, ok), []);
  }

  lemma WriteStep(cfg: T.Config, s: T.State, pid: nat, batch: seq<Event>, ok: bool)
    requires pid < |s.procs| && s.procs[pid] == T.Proc(T.Caller, T.Encoding(batch))
    ensures T.Next(cfg, s, pid, ok, T.OnTick)
         == if batch == [] then T.Move(T.Ended, s.shared)
            else T.Effect(T.Encoding(batch[1..]), s.shared, [], if ok then [batch[0]] else [], if ok then []
                          else [batch[0]])
  {}

  /** From the first failed store attempt after which none works: the dead-letter part. */
  lemma OpeningRun(cfg: T.Config, s: T.State, pid: nat, batch: seq<Event>, o: Outcomes) returns (actions: seq<T.Action>)
    requires pid < |s.procs| && s.procs[pid] == T.Proc(T.Caller, T.Opening(batch))
    ensures Only(actions, pid)
    ensures T.Exec(cfg, s, actions)
         == Moved(s, pid, T.Ended, s.shared.(fileOpen := s.shared.fileOpen || o.open),
                  DeadLettered(batch, s.shared.fileOpen, o))
  {
    hide T.React, T.Exec, T.Next;
    OpenStep(cfg, s, pid, batch, o.open);
    if s.shared.fileOpen || o.open {
      var sh := s.shared.(fileOpen := true);
      var t := Moved(s, pid, T.Encoding(batch), sh, NOTHING);
      var rest := WritingRun(cfg, t, pid, batch, 0, o.write);
      actions := [Act(pid, o.open)] + rest;
      Prefixed(cfg, s, pid, o.open, T.Encoding(batch), sh, NOTHING, rest, sh,
               DeadLettered(batch, s.shared.fileOpen, o));
      JoinNothing(DeadLettered(batch, s.shared.fileOpen, o));
    } else {
      actions := [Act(pid, o.open)] + [];
      LastStep(cfg, s, pid, o.open, s.shared, Destination([], [], batch));
    }
  }

  lemma OpenStep(cfg: T.Config, s: T.State, pid: nat, batch: seq<Event>, ok: bool)
    requires pid < |s.procs| && s.procs[pid] == T.Proc(T.Caller, T.Opening(batch))
    ensures T.Next(cfg, s, pid, ok, T.OnTick)
         == if s.shared.fileOpen || ok then T.Move(T.Encoding(batch), s.shared.(fileOpen := true))
            else T.Effect(T.Ended, s.shared, [], [], batch)
  {}

  /** The retry loop, from any number of failures. */
  lemma {:induction false} StoringRun(cfg: T.Config, s: T.State, pid: nat, batch: seq<Event>, failures: nat,
                                      o: Outcomes)
    returns (actions: seq<T.Action>)
    requires pid < |s.procs| && s.procs[pid] == T.Proc(T.Caller, T.Storing(batch, failures))
    requires failures <= T.Retries(cfg)
    ensures Only(actions, pid)
    ensures var works := StoreWorks(T.Retries(cfg), o.store, failures);
            T.Exec(cfg, s, actions) ==
            Moved(s, pid, T.Ended, s.shared.(fileOpen := s.shared.fileOpen || (!works && o.open)),
                  if works then Destination(batch, [], []) else DeadLettered(batch, s.shared.fileOpen, o))
    decreases T.Retries(cfg) - failures
  {
    hide T.React, T.Exec, T.Next, DeadLettered, T.Retries;
    var ok := o.store(failures);
    StoreStep(cfg, s, pid, batch, failures, ok);
    if ok {
      actions := [Act(pid, ok)] + [];
      LastStep(cfg, s, pid, ok, s.shared, Destination(batch, [], []));
    } else {
      var p := if failures < T.Retries(cfg) then T.Storing(batch, failures + 1) else T.Opening(batch);
      var t := Moved(s, pid, p, s.shared, NOTHING);
      var rest;
      if failures < T.Retries(cfg) {
        rest := StoringRun(cfg, t, pid, batch, failures + 1, o);
      } else {
        rest := OpeningRun(cfg, t, pid, batch, o);
      }
      var works := StoreWorks(T.Retries(cfg), o.store, failures);
      var d := if works then Destination(batch, [], []) else DeadLettered(batch, s.shared.fileOpen, o);
      actions := [Act(pid, ok)] + rest;
      Prefixed(cfg, s, pid, ok, p, s.shared, NOTHING, rest,
               s.shared.(fileOpen := s.shared.fileOpen || (!works && o.open)), d);
      JoinNothing(d);
    }
  }

  lemma StoreStep(cfg: T.Config, s: T.State, pid: nat, batch: seq<Event>, failures: nat, ok: bool)
    requires pid < |s.procs| && s.procs[pid] == T.Proc(T.Caller, T.Storing(batch, failures))
    ensures T.Next(cfg, s, pid, ok, T.OnTick)
         == if ok then T.Effect(T.Ended, s.shared, batch, [], [])
            else T.Move(if failures < T.Retries(cfg) then T.Storing(batch, failures + 1)
                        else T.Opening(batch), s.shared)
  {}

  /** Refinement: a flush that nothing interrupts is a run of one process of the step system, from its
      swap to its return, with the same destinations as the method. */
  lemma FlushIsRun(cfg: T.Config, s: T.State, pid: nat, o: Outcomes) returns (actions: seq<T.Action>)
    requires pid < |s.procs| && s.procs[pid] == T.Proc(T.Caller, T.Swapping) && s.shared.buffer != []
    ensures Only(actions, pid)
    ensures var retries := T.Retries(cfg);
            var open := s.shared.fileOpen || OpensFile(retries, o);
            T.Exec(cfg, s, actions) ==
            Moved(s, pid, T.Ended, s.shared.(buffer := [], retry := [], fileOpen := open),
                  Destined(retries, s.shared.retry + s.shared.buffer, s.shared.fileOpen, o))
  {
    hide T.React, T.Exec, T.Next, Written, T.Retries;
    var buffer, retry := s.shared.buffer, s.shared.retry;
    var sh1 := s.shared.(buffer := []);
    var sh2 := sh1.(retry := []);
    SwapStep(cfg, s, pid);
    var s1 := Moved(s, pid, T.Collecting(buffer), sh1, NOTHING);
    CollectStep(cfg, s1, pid, buffer);
    var d := Destined(T.Retries(cfg), retry + buffer, s.shared.fileOpen, o);
    var sh' := sh2.(fileOpen := s.shared.fileOpen || OpensFile(T.Retries(cfg), o));
    var rest;
    if T.Retries(cfg) < 0 {
      rest := [Act(pid, true)] + [];
      LastStep(cfg, s1, pid, true, sh2, NOTHING);
    } else {
      var p := T.Storing(retry + buffer, 0);
      var s2 := Moved(s1, pid, p, sh2, NOTHING);
      var tail := StoringRun(cfg, s2, pid, retry + buffer, 0, o);
      rest := [Act(pid, true)] + tail;
      Prefixed(cfg, s1, pid, true, p, sh2, NOTHING, tail, sh', d);
      JoinNothing(d);
    }
    actions := [Act(pid, true)] + rest;
    Prefixed(cfg, s, pid, true, T.Collecting(buffer), sh1, NOTHING, rest, sh', d);
    JoinNothing(d);
  }

  lemma SwapStep(cfg: T.Config, s: T.State, pid: nat)
    requires pid < |s.procs| && s.procs[pid] == T.Proc(T.Caller, T.Swapping) && s.shared.buffer != []
    ensures T.Next(cfg, s, pid, true, T.OnTick) == T.Move(T.Collecting(s.shared.buffer), s.shared.(buffer := []))
  {}

  lemma CollectStep(cfg: T.Config, s: T.State, pid: nat, batch: seq<Event>)
    requires pid < |s.procs| && s.procs[pid] == T.Proc(T.Caller, T.Collecting(batch))
    ensures T.Next(cfg, s, pid, true, T.OnTick)
         == T.Move(if T.Retries(cfg) < 0 then T.Ended else T.Storing(s.shared.retry + batch, 0), s.shared.(retry := []))
  {}
}
