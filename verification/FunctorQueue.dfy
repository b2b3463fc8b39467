/** The functor queue of an EventLoop and its eventfd wakeups (src/net/EventLoop.cpp). */
module FunctorSpec {
  import opened Prelude

  // A functor is known by a number; threads too. The loop's own thread is LOOP.
  type Functor = nat
  type Thread = nat
  const LOOP: Thread := 0

  // The loop is before epoll_wait, handling events before or after it drained the eventfd, or running functors.
  datatype Phase = Waiting | Handling | Running

  /** pending is pending_functors_ and batch the swapped-out functors still to run. owing holds the threads
      that have pushed and not yet called Wakeup. count is the eventfd counter, edge says that epoll has the
      eventfd in its ready list, and drain that this round's wakeup event is still to be handled.
      pushed and ran are the history. */
  datatype Queue = Queue(
    pending: seq<Functor>, batch: seq<Functor>, owing: set<Thread>, count: nat, edge: bool,
    phase: Phase, drain: bool, pushed: seq<Functor>, ran: seq<Functor>)

  const START := Queue([], [], {}, 0, false, Waiting, false, [], [])

  function Push(q: Queue, t: Thread, f: Functor): Queue {
    q.(pending := q.pending + [f], pushed := q.pushed + [f], owing := q.owing + {t})
  }

  function Wakeup(q: Queue, t: Thread): Queue {
    q.(owing := q.owing - {t}, count := q.count + 1, edge := true)
  }

  datatype Step =
    | PushBy(t: Thread, f: Functor)  // QueueInLoop: the push, under the lock
    | WakeupBy(t: Thread)            // QueueInLoop: the write to the eventfd, after the unlock
    | Return(woken: bool)            // epoll_wait returns, with or without the eventfd among its events
    | Drain                          // HandleRead of the eventfd
    | Swap                           // DoPendingFunctors: swap the queue out, under the lock
    | RunNext                        // ... and run what was in it
    | Block                          // the loop goes back to epoll_wait

  // Only the loop's own steps need its thread to be out of QueueInLoop. epoll_wait reports an edge-triggered
  // eventfd that is in the ready list and readable; it may have no room for it and report it later.
  predicate Enabled(q: Queue, step: Step) {
    match step
    case PushBy(t, _) => t !in q.owing && (t == LOOP ==> q.phase != Waiting)
    case WakeupBy(t) => t in q.owing
    case Return(woken) => q.phase == Waiting && LOOP !in q.owing && (woken ==> q.edge && q.count > 0)
    case Drain => q.phase == Handling && q.drain && LOOP !in q.owing
    case Swap => q.phase == Handling && !q.drain && LOOP !in q.owing
    case RunNext => q.phase == Running && q.batch != [] && LOOP !in q.owing
    case Block => q.phase == Running && q.batch == [] && LOOP !in q.owing
  }

  function Next(q: Queue, step: Step): Queue
    requires Enabled(q, step)
  {
    match step
    case PushBy(t, f) => Push(q, t, f)
    case WakeupBy(t) => Wakeup(q, t)
    case Return(woken) => q.(phase := Handling, drain := woken, edge := q.edge && !woken)
    case Drain => q.(drain := false, count := 0)
    case Swap => q.(phase := Running, batch := q.pending, pending := [])
    case RunNext => q.(batch := q.batch[1..], ran := q.ran + [q.batch[0]])
    case Block => q.(phase := Waiting)
  }

  predicate IsRun(q: Queue, steps: seq<Step>)
    decreases steps
  {
    steps == [] || (Enabled(q, steps[0]) && IsRun(Next(q, steps[0]), steps[1..]))
  }

  function After(q: Queue, steps: seq<Step>): Queue
    requires IsRun(q, steps)
    decreases steps
  {
    if steps == [] then q else After(Next(q, steps[0]), steps[1..])
  }

  // ---------- The invariant ----------

  /** A wakeup that epoll_wait will report. */
  predicate EdgePending(q: Queue) {
    q.edge && q.count > 0
  }

  ghost predicate Inv(q: Queue) {
    && q.pushed == q.ran + q.batch + q.pending
    && (q.phase != Running ==> q.batch == [])
    && (q.phase == Waiting ==> LOOP !in q.owing)
    && (q.drain ==> q.phase == Handling)
    // Once the queue was swapped out, what is pending again has its wakeup written or owed.
    && (q.phase != Handling && q.pending != [] ==> EdgePending(q) || q.owing != {})
  }

  lemma StepKeeps(q: Queue, step: Step)
    requires Inv(q) && Enabled(q, step)
    ensures Inv(Next(q, step))
  {
    match step
    case PushBy(t, f) =>
      assert q.ran + q.batch + q.pending + [f] == q.ran + q.batch + (q.pending + [f]);
      assert t in Next(q, step).owing;
    case Swap =>
      assert q.ran + q.batch + q.pending == q.ran + q.pending + [];
    case RunNext =>
      assert q.batch == [q.batch[0]] + q.batch[1..];
      assert q.ran + q.batch == q.ran + [q.batch[0]] + q.batch[1..];
    case _ =>
  }

  lemma {:induction false} RunKeeps(q: Queue, steps: seq<Step>)
    requires Inv(q) && IsRun(q, steps)
    ensures Inv(After(q, steps))
    decreases steps
  {
    if steps != [] {
      StepKeeps(q, steps[0]);
      RunKeeps(Next(q, steps[0]), steps[1..]);
    }
  }

  /** The functors handed to QueueInLoop. */
  function Handed(steps: seq<Step>): seq<Functor> {
    if steps == [] then [] else (if steps[0].PushBy? then [steps[0].f] else []) + Handed(steps[1..])
  }

  /** How many functors the loop has called. */
  function Called(steps: seq<Step>): nat {
    if steps == [] then 0 else (if steps[0].RunNext? then 1 else 0) + Called(steps[1..])
  }

  lemma {:induction false} HistoryIsRun(q: Queue, steps: seq<Step>)
    requires IsRun(q, steps)
    ensures After(q, steps).pushed == q.pushed + Handed(steps)
    ensures |After(q, steps).ran| == |q.ran| + Called(steps)
    decreases steps
  {
    if steps == [] {
      assert q.pushed + [] == q.pushed;
    } else {
      HistoryIsRun(Next(q, steps[0]), steps[1..]);
      Associate(q.pushed, if steps[0].PushBy? then [steps[0].f] else [], Handed(steps[1..]));
      assert q.pushed + [] == q.pushed;
    }
  }

  /** Wakeups since the eventfd was last read. */
  function Wakeups(steps: seq<Step>): nat {
    if steps == [] then 0
    else
      var last := steps[|steps| - 1];
      if last.Drain? then 0 else Wakeups(steps[..|steps| - 1]) + if last.WakeupBy? then 1 else 0
  }

  lemma {:induction false} RunSnoc(q: Queue, steps: seq<Step>)
    requires IsRun(q, steps) && steps != []
    ensures var n := |steps| - 1;
      && IsRun(q, steps[..n]) && Enabled(After(q, steps[..n]), steps[n])
      && After(q, steps) == Next(After(q, steps[..n]), steps[n])
    decreases steps
  {
    var n := |steps| - 1;
    if n > 0 {
      var rest := steps[1..];
      RunSnoc(Next(q, steps[0]), rest);
      assert rest[..n - 1] == steps[..n][1..] && rest[n - 1] == steps[n];
    } else {
      assert steps[1..] == [];
    }
  }

  /** The counter of the eventfd is the number of wakeups since it was last read. */
  lemma {:induction false} CounterIsWakeups(steps: seq<Step>)
    requires IsRun(START, steps)
    ensures After(START, steps).count == Wakeups(steps)
    decreases |steps|
  {
    if steps != [] {
      RunSnoc(START, steps);
      CounterIsWakeups(steps[..|steps| - 1]);
    }
  }

  /** First in, first out, at most once: what has run is a prefix of what was handed over, as long as the number of
      calls, and the rest is still there, in order, whatever running functors push. */
  lemma FunctorsInOrder(steps: seq<Step>)
    requires IsRun(START, steps)
    ensures var q := After(START, steps); var handed := Handed(steps);
      && Called(steps) <= |handed| && q.ran == handed[..Called(steps)]
      && handed[Called(steps)..] == q.batch + q.pending
  {
    RunKeeps(START, steps);
    HistoryIsRun(START, steps);
    assert [] + Handed(steps) == Handed(steps);
    var q := After(START, steps);
    Associate(q.ran, q.batch, q.pending);
    AppendPrefix(q.ran, q.batch + q.pending);
  }

  /** No lost wakeup: a loop about to block with functors pending has a wakeup that epoll_wait reports,
      or another thread is between its push and its Wakeup. */
  lemma NoLostWakeup(steps: seq<Step>)
    requires IsRun(START, steps)
    requires var q := After(START, steps); q.phase == Waiting && q.pending != []
    ensures var q := After(START, steps);
      EdgePending(q) || exists t :: t in q.owing && t != LOOP
  {
    RunKeeps(START, steps);
    var q := After(START, steps);
    if !EdgePending(q) {
      var t :| t in q.owing;
      assert t != LOOP;
    }
  }

  lemma {:induction false} Append(q: Queue, a: seq<Step>, b: seq<Step>)
    requires IsRun(q, a) && IsRun(After(q, a), b)
    ensures IsRun(q, a + b) && After(q, a + b) == After(After(q, a), b)
    decreases a
  {
    if a == [] {
      assert a + b == b;
    } else {
      assert (a + b)[1..] == a[1..] + b;
      Append(Next(q, a[0]), a[1..], b);
    }
  }

  lemma One(q: Queue, step: Step)
    requires Enabled(q, step)
    ensures IsRun(q, [step]) && After(q, [step]) == Next(q, step)
  {
    var one := [step];
    assert one[0] == step && one[1..] == [];
    assert IsRun(Next(q, one[0]), one[1..]);
    assert After(q, one) == After(Next(q, one[0]), one[1..]);
  }

  lemma {:induction false} BatchRuns(q: Queue) returns (steps: seq<Step>)
    requires q.phase == Running && LOOP !in q.owing
    ensures IsRun(q, steps)
    ensures var r := After(q, steps);
      r == q.(batch := [], ran := q.ran + q.batch)
    decreases |q.batch|
  {
    if q.batch == [] {
      steps := [];
      assert q.ran + [] == q.ran;
    } else {
      var rest := BatchRuns(Next(q, RunNext));
      steps := [RunNext] + rest;
      assert q.ran + [q.batch[0]] + q.batch[1..] == q.ran + q.batch by {
        assert q.batch == [q.batch[0]] + q.batch[1..];
      }
    }
  }

  /** From any blocked state of any run the pending functors can all be run: an owing thread writes its
      wakeup, epoll_wait reports it, and the round runs everything pushed so far. */
  lemma EveryFunctorCanRun(q: Queue) returns (steps: seq<Step>)
    requires Inv(q) && q.phase == Waiting && q.pending != []
    ensures IsRun(q, steps)
    ensures After(q, steps).ran == q.pushed
  {
    var a := q;
    steps := [];
    if !EdgePending(q) {
      var t :| t in q.owing;
      One(q, WakeupBy(t));
      steps := [WakeupBy(t)];
      a := Next(q, WakeupBy(t));
    }
    One(a, Return(true));
    Append(q, steps, [Return(true)]);
    var b := Next(a, Return(true));
    One(b, Drain);
    Append(q, steps + [Return(true)], [Drain]);
    var c := Next(b, Drain);
    One(c, Swap);
    Append(q, steps + [Return(true)] + [Drain], [Swap]);
    var d := Next(c, Swap);
    var rest := BatchRuns(d);
    Append(q, steps + [Return(true)] + [Drain] + [Swap], rest);
    steps := steps + [Return(true)] + [Drain] + [Swap] + rest;
    assert q.ran + [] + q.pending == q.ran + q.pending;
  }
}

/** EventLoop's queue as an object. Each method is one atomic step, or a sequence of them on one thread. */
module FunctorCode {
  import opened Prelude
  import Spec = FunctorSpec

  class EventLoop {
    var pendingFunctors: seq<Spec.Functor>
    var batch: seq<Spec.Functor>
    // The kernel's eventfd.
    var count: nat
    var edge: bool
    ghost var owing: set<Spec.Thread>
    ghost var phase: Spec.Phase
    ghost var drain: bool
    ghost var pushed: seq<Spec.Functor>
    ghost var ran: seq<Spec.Functor>

    ghost function View(): Spec.Queue
      reads this
    {
      Spec.Queue(pendingFunctors, batch, owing, count, edge, phase, drain, pushed, ran)
    }

    constructor ()
      ensures View() == Spec.START
    {
      pendingFunctors, batch, count, edge := [], [], 0, false;
      owing, phase, drain, pushed, ran := {}, Spec.Waiting, false, [], [];
    }

    /** The locked part of QueueInLoop. */
    method Push(ghost t: Spec.Thread, f: Spec.Functor)
      requires Spec.Enabled(View(), Spec.PushBy(t, f))
      modifies this
      ensures View() == Spec.Next(old(View()), Spec.PushBy(t, f))
    {
      pendingFunctors := pendingFunctors + [f];
      pushed := pushed + [f];
      owing := owing + {t};
    }

    method Wakeup(ghost t: Spec.Thread)
      requires t in owing
      modifies this
      ensures View() == Spec.Next(old(View()), Spec.WakeupBy(t))
    {
      count := count + 1;
      edge := true;
      owing := owing - {t};
    }

    /** QueueInLoop, when no other thread comes between its two parts. */
    method QueueInLoop(ghost t: Spec.Thread, f: Spec.Functor)
      requires Spec.Enabled(View(), Spec.PushBy(t, f))
      modifies this
      ensures View() == Spec.Wakeup(Spec.Push(old(View()), t, f), t)
    {
      Push(t, f);
      Wakeup(t);
    }

    /** HandleRead: empties the eventfd counter. */
    method HandleRead()
      requires Spec.Enabled(View(), Spec.Drain)
      modifies this
      ensures View() == Spec.Next(old(View()), Spec.Drain)
    {
      count := 0;
      drain := false;
    }

    /** DoPendingFunctors on the loop thread: functor i queues nested[i] while it runs. The trace is the steps. */
    method DoPendingFunctors(nested: seq<seq<Spec.Functor>>) returns (ghost trace: seq<Spec.Step>)
      requires Spec.Inv(View()) && Spec.Enabled(View(), Spec.Swap)
      modifies this
      ensures Spec.IsRun(old(View()), trace) && Spec.After(old(View()), trace) == View()
      ensures batch == [] && ran == old(ran) + old(pendingFunctors)
    {
      trace := [Spec.Swap];
      Spec.One(View(), Spec.Swap);
      var functors := pendingFunctors;
      pendingFunctors, batch := [], functors;
      phase := Spec.Running;
      for i := 0 to |functors|
        invariant batch == functors[i..] && phase == Spec.Running && Spec.LOOP !in owing
        invariant ran == old(ran) + functors[..i]
        invariant Spec.IsRun(old(View()), trace) && Spec.After(old(View()), trace) == View()
      {
        ghost var step := RunNext();
        Spec.Append(old(View()), trace, step);
        trace := trace + step;
        ghost var more := QueueAll(if i < |nested| then nested[i] else []);
        Spec.Append(old(View()), trace, more);
        trace := trace + more;
      }
    }

    method RunNext() returns (ghost trace: seq<Spec.Step>)
      requires Spec.Enabled(View(), Spec.RunNext)
      modifies this
      ensures batch == old(batch)[1..] && ran == old(ran) + [old(batch)[0]] && phase == old(phase) && owing == old(owing)
      ensures Spec.IsRun(old(View()), trace) && Spec.After(old(View()), trace) == View()
    {
      trace := [Spec.RunNext];
      Spec.One(View(), Spec.RunNext);
      ran := ran + [batch[0]];
      batch := batch[1..];
    }

    /** What a functor queues while it runs. */
    method QueueAll(fs: seq<Spec.Functor>) returns (ghost trace: seq<Spec.Step>)
      requires phase == Spec.Running && Spec.LOOP !in owing
      modifies this
      ensures batch == old(batch) && ran == old(ran) && phase == old(phase) && Spec.LOOP !in owing
      ensures pendingFunctors == old(pendingFunctors) + fs
      ensures Spec.IsRun(old(View()), trace) && Spec.After(old(View()), trace) == View()
    {
      trace := [];
      for i := 0 to |fs|
        invariant batch == old(batch) && ran == old(ran) && phase == old(phase) && Spec.LOOP !in owing
        invariant pendingFunctors == old(pendingFunctors) + fs[..i]
        invariant Spec.IsRun(old(View()), trace) && Spec.After(old(View()), trace) == View()
      {
        ghost var push, wake := Spec.PushBy(Spec.LOOP, fs[i]), Spec.WakeupBy(Spec.LOOP);
        Spec.One(View(), push);
        Spec.Append(old(View()), trace, [push]);
        trace := trace + [push];
        Push(Spec.LOOP, fs[i]);
        Spec.One(View(), wake);
        Spec.Append(old(View()), trace, [wake]);
        trace := trace + [wake];
        Wakeup(Spec.LOOP);
      }
    }
  }
}
