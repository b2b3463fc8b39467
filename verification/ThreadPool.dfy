/** The thread pool: one queue, a mutex, a condition variable and a set of workers (src/base/ThreadPool.cpp). */
module PoolSpec {
  import opened Prelude

  // NoTask is a std::function without a target; a worker takes it and does not call it.
  datatype Task = NoTask | Work(id: nat)

  // Awake: about to take the mutex and look at the queue. Asleep: in pthread_cond_wait.
  datatype Worker = Awake | Asleep | Running(task: Task) | Exited

  // The Stop call that found stop_ false. Set: stop_ is true, the broadcast is still due.
  datatype Stopper = NotYet | Set | Joining | Returned

  /** signals counts the producers between their unlock and their pthread_cond_signal. accepted is every task
      pushed so far, taken every task taken from the queue, finished every task a worker is through with. */
  datatype Pool = Pool(
    queue: seq<Task>, stop: bool, workers: seq<Worker>, stopper: Stopper, signals: nat,
    accepted: seq<Task>, taken: seq<Task>, finished: seq<Task>)

  function Start(workers: nat): (p: Pool)
    ensures |p.workers| == workers && forall i :: 0 <= i < workers ==> p.workers[i] == Awake
  {
    Pool([], false, seq(workers, _ => Awake), NotYet, 0, [], [], [])
  }

  /** The locked part of AddTask. The signal follows after the unlock, whether or not the task was accepted. */
  function Push(p: Pool, task: Task): Pool {
    var q := p.(signals := p.signals + 1);
    if p.stop then q else q.(queue := p.queue + [task], accepted := p.accepted + [task])
  }

  /** One pass of a worker through its locked section. */
  function Look(p: Pool, i: nat): Pool
    requires i < |p.workers|
  {
    if p.queue == [] then p.(workers := p.workers[i := if p.stop then Exited else Asleep])
    else
      p.(workers := p.workers[i := Running(p.queue[0])], queue := p.queue[1..], taken := p.taken + [p.queue[0]])
  }

  function Finish(p: Pool, i: nat): Pool
    requires i < |p.workers| && p.workers[i].Running?
  {
    p.(workers := p.workers[i := Awake], finished := p.finished + [p.workers[i].task])
  }

  function WakeAll(workers: seq<Worker>): (r: seq<Worker>)
    ensures |r| == |workers|
    ensures forall i :: 0 <= i < |r| ==> r[i] == if workers[i] == Asleep then Awake else workers[i]
  {
    seq(|workers|, i requires 0 <= i < |workers| => if workers[i] == Asleep then Awake else workers[i])
  }

  datatype Step =
    | AddTask(task: Task)
    | Signal(woken: nat)  // the worker that the kernel wakes; none when nobody sleeps
    | Spurious(i: nat)
    | Lock(i: nat)
    | Done(i: nat)
    | SetStop
    | Broadcast
    | Join

  ghost predicate Enabled(p: Pool, step: Step) {
    match step
    case AddTask(_) => true
    case Signal(i) => p.signals > 0 && (Asleep in p.workers ==> i < |p.workers| && p.workers[i] == Asleep)
    case Spurious(i) => i < |p.workers| && p.workers[i] == Asleep
    case Lock(i) => i < |p.workers| && p.workers[i] == Awake
    case Done(i) => i < |p.workers| && p.workers[i].Running?
    case SetStop => true
    case Broadcast => p.stopper == Set
    case Join => p.stopper == Joining && forall i :: 0 <= i < |p.workers| ==> p.workers[i] == Exited
  }

  function Wake(p: Pool, i: nat): Pool {
    if i < |p.workers| && p.workers[i] == Asleep then p.(workers := p.workers[i := Awake]) else p
  }

  ghost function Next(p: Pool, step: Step): Pool
    requires Enabled(p, step)
  {
    match step
    case AddTask(t) => Push(p, t)
    case Signal(i) => Wake(p, i).(signals := p.signals - 1)
    case Spurious(i) => Wake(p, i)
    case Lock(i) => Look(p, i)
    case Done(i) => Finish(p, i)
    case SetStop => if p.stop then p else p.(stop := true, stopper := Set)
    case Broadcast => p.(workers := WakeAll(p.workers), stopper := Joining)
    case Join => p.(stopper := Returned)
  }

  ghost predicate IsRun(p: Pool, steps: seq<Step>)
    decreases steps
  {
    steps == [] || (Enabled(p, steps[0]) && IsRun(Next(p, steps[0]), steps[1..]))
  }

  ghost function After(p: Pool, steps: seq<Step>): Pool
    requires IsRun(p, steps)
    decreases steps
  {
    if steps == [] then p else After(Next(p, steps[0]), steps[1..])
  }
}

module PoolTheorems {
  import opened Prelude
  import opened PoolSpec

  function Hand(w: Worker, task: Task): nat {
    if w == Running(task) then 1 else 0
  }

  /** How many workers hold the task. */
  function Held(workers: seq<Worker>, task: Task): nat {
    if workers == [] then 0
    else Held(workers[..|workers| - 1], task) + Hand(workers[|workers| - 1], task)
  }

  lemma {:induction false} HeldUpdate(workers: seq<Worker>, i: nat, w: Worker, task: Task)
    requires i < |workers|
    ensures Held(workers[i := w], task) + Hand(workers[i], task) == Held(workers, task) + Hand(w, task)
    decreases |workers|
  {
    var n := |workers| - 1;
    var updated := workers[i := w];
    if i < n {
      HeldUpdate(workers[..n], i, w, task);
      assert updated[..n] == workers[..n][i := w];
    } else {
      assert updated[..n] == workers[..n];
    }
  }

  lemma {:induction false} HeldNothing(workers: seq<Worker>, task: Task)
    requires forall i :: 0 <= i < |workers| ==> !workers[i].Running?
    ensures Held(workers, task) == 0
    decreases |workers|
  {
    if workers != [] { HeldNothing(workers[..|workers| - 1], task); }
  }

  lemma {:induction false} HeldAgrees(a: seq<Worker>, b: seq<Worker>, task: Task)
    requires |a| == |b| && forall i :: 0 <= i < |a| ==> Hand(a[i], task) == Hand(b[i], task)
    ensures Held(a, task) == Held(b, task)
    decreases |a|
  {
    if a != [] {
      var n := |a| - 1;
      assert forall i :: 0 <= i < n ==> a[..n][i] == a[i] && b[..n][i] == b[i];
      HeldAgrees(a[..n], b[..n], task);
    }
  }

  /** A taken task is held by one worker or finished. */
  predicate Kept(p: Pool, task: Task) {
    multiset(p.taken)[task] == Held(p.workers, task) + multiset(p.finished)[task]
  }

  /** Tasks leave the queue in the order of their acceptance, and none is lost or doubled afterwards. */
  ghost predicate Conserved(p: Pool) {
    && p.accepted == p.taken + p.queue
    && forall task :: Kept(p, task)
  }

  predicate Active(w: Worker) {
    w.Awake? || w.Running?
  }

  predicate SomeoneActive(p: Pool) {
    exists i :: 0 <= i < |p.workers| && Active(p.workers[i])
  }

  /** No lost wakeup: work in the queue of a pool with workers has an active worker, or a signal or broadcast due. */
  predicate Served(p: Pool) {
    p.queue != [] && p.workers != [] ==> SomeoneActive(p) || p.signals > 0 || p.stopper == Set
  }

  predicate Phases(p: Pool) {
    && (p.stop <==> p.stopper != NotYet)
    && (Asleep in p.workers ==> p.stopper == NotYet || p.stopper == Set)
    && (Exited in p.workers ==> p.stop && p.queue == [])
    && (p.stopper == Returned ==> forall i :: 0 <= i < |p.workers| ==> p.workers[i] == Exited)
  }

  ghost predicate Inv(p: Pool) {
    Conserved(p) && Served(p) && Phases(p)
  }

  // ---------- Each step keeps the invariant ----------

  lemma LookConserves(p: Pool, i: nat, task: Task)
    requires Kept(p, task) && Enabled(p, Lock(i))
    ensures Kept(Look(p, i), task)
  {
    HeldUpdate(p.workers, i, Look(p, i).workers[i], task);
  }

  lemma LookKeepsOrder(p: Pool, i: nat)
    requires p.accepted == p.taken + p.queue && Enabled(p, Lock(i))
    ensures Look(p, i).accepted == Look(p, i).taken + Look(p, i).queue
  {
    if p.queue != [] { MoveHead(p.taken, p.queue); }
  }

  lemma LookServes(p: Pool, i: nat)
    requires Phases(p) && Enabled(p, Lock(i))
    ensures Served(Look(p, i)) && Phases(Look(p, i))
  {
    var q := Look(p, i);
    assert Awake in p.workers;
    assert forall w :: w in q.workers ==> w in p.workers || w == q.workers[i];
    assert p.stopper != Returned;
    if p.queue != [] {
      assert Active(q.workers[i]);
    }
  }

  lemma FinishConserves(p: Pool, i: nat, task: Task)
    requires Conserved(p) && Enabled(p, Done(i))
    ensures Kept(Finish(p, i), task)
  {
    assert Kept(p, task);
    HeldUpdate(p.workers, i, Awake, task);
  }

  /** Making one worker awake that had not left serves the queue and keeps the phases. */
  lemma AwakeServes(p: Pool, q: Pool, i: nat)
    requires Phases(p) && i < |p.workers| && p.workers[i] != Exited
    requires q == p.(workers := p.workers[i := Awake], finished := q.finished)
    ensures Served(q) && Phases(q) && SomeoneActive(q)
  {
    assert forall w :: w in q.workers ==> w in p.workers || w == Awake;
    assert Active(q.workers[i]);
  }

  lemma WakeKeeps(p: Pool, i: nat)
    requires Inv(p) && i < |p.workers| && p.workers[i] == Asleep
    ensures Inv(Wake(p, i)) && SomeoneActive(Wake(p, i))
  {
    AwakeServes(p, Wake(p, i), i);
    forall task ensures Kept(Wake(p, i), task) {
      assert Kept(p, task);
      HeldUpdate(p.workers, i, Awake, task);
    }
  }

  lemma SignalKeeps(p: Pool, i: nat)
    requires Inv(p) && Enabled(p, Signal(i))
    ensures Inv(Next(p, Signal(i)))
  {
    var woken := Wake(p, i);
    var q := woken.(signals := p.signals - 1);
    if Asleep in p.workers {
      WakeKeeps(p, i);
      assert SomeoneActive(q);
    } else {
      assert woken == p;
      if p.queue != [] && p.workers != [] {
        assert p.workers[0] in p.workers;
        assert Active(q.workers[0]);
      }
    }
    forall task ensures Kept(q, task) { assert Kept(woken, task); }
  }

  lemma BroadcastServes(p: Pool, q: Pool)
    requires Phases(p) && p.stopper == Set
    requires q == p.(workers := WakeAll(p.workers), stopper := Joining)
    ensures Served(q) && Phases(q)
  {
    assert Asleep !in q.workers;
    if Exited in q.workers {
      var i :| 0 <= i < |q.workers| && q.workers[i] == Exited;
      assert p.workers[i] == Exited;
    } else if q.workers != [] {
      assert q.workers[0] in q.workers;
      assert Active(q.workers[0]);
    }
  }

  lemma BroadcastKeeps(p: Pool, q: Pool)
    requires Inv(p) && p.stopper == Set
    requires q == p.(workers := WakeAll(p.workers), stopper := Joining)
    ensures Inv(q)
  {
    BroadcastServes(p, q);
    forall task ensures Kept(q, task) {
      assert Kept(p, task);
      HeldAgrees(p.workers, q.workers, task);
    }
  }

  lemma PushKeeps(p: Pool, task: Task)
    requires Inv(p)
    ensures Inv(Push(p, task))
  {
    if !p.stop { assert p.accepted + [task] == p.taken + (p.queue + [task]); }
    forall t ensures Kept(Push(p, task), t) { assert Kept(p, t); }
  }

  lemma StepKeeps(p: Pool, step: Step)
    requires Inv(p) && Enabled(p, step)
    ensures Inv(Next(p, step))
  {
    match step
    case AddTask(t) => PushKeeps(p, t);
    case Signal(i) => SignalKeeps(p, i);
    case Spurious(i) => WakeKeeps(p, i);
    case Lock(i) =>
      LookServes(p, i);
      forall task ensures Kept(Look(p, i), task) {
        assert Kept(p, task);
        LookConserves(p, i, task);
      }
      LookKeepsOrder(p, i);
    case Done(i) =>
      AwakeServes(p, Finish(p, i), i);
      forall task ensures Kept(Finish(p, i), task) { FinishConserves(p, i, task); }
    case Broadcast => BroadcastKeeps(p, Next(p, step));
    case _ =>
      forall task ensures Kept(Next(p, step), task) { assert Kept(p, task); }
  }

  lemma {:induction false} RunKeeps(p: Pool, steps: seq<Step>)
    requires Inv(p) && IsRun(p, steps)
    ensures Inv(After(p, steps)) && |After(p, steps).workers| == |p.workers|
    decreases steps
  {
    if steps != [] {
      StepKeeps(p, steps[0]);
      RunKeeps(Next(p, steps[0]), steps[1..]);
    }
  }

  lemma Reachable(workers: nat, steps: seq<Step>)
    requires IsRun(Start(workers), steps)
    ensures Inv(After(Start(workers), steps)) && |After(Start(workers), steps).workers| == workers
  {
    forall task ensures Kept(Start(workers), task) { HeldNothing(Start(workers).workers, task); }
    RunKeeps(Start(workers), steps);
  }

  // ---------- Main results ----------

  /** In no reachable state is there work, every worker asleep, and nobody about to wake one. */
  lemma NeverStuck(workers: nat, steps: seq<Step>)
    requires IsRun(Start(workers), steps) && workers > 0
    requires var p := After(Start(workers), steps);
      p.queue != [] && forall i :: 0 <= i < |p.workers| ==> p.workers[i] == Asleep
    ensures var p := After(Start(workers), steps); p.signals > 0 || p.stopper == Set
  {
    Reachable(workers, steps);
  }

  /** First in, first out, and each accepted task is in exactly one place: the queue, one worker's hands, finished. */
  lemma EachTaskOnce(workers: nat, steps: seq<Step>, task: Task)
    requires IsRun(Start(workers), steps)
    ensures var p := After(Start(workers), steps);
      && p.taken <= p.accepted
      && p.accepted[|p.taken|..] == p.queue
      && multiset(p.accepted)[task] == multiset(p.queue)[task] + Held(p.workers, task) + multiset(p.finished)[task]
  {
    Reachable(workers, steps);
    var p := After(Start(workers), steps);
    assert Kept(p, task);
    assert multiset(p.taken + p.queue) == multiset(p.taken) + multiset(p.queue);
  }

  /** When Stop has returned, every accepted task has finished exactly once, if and only if the pool had a
      worker or nothing was ever accepted. */
  lemma StopFinishesEverythingIff(workers: nat, steps: seq<Step>)
    requires IsRun(Start(workers), steps) && After(Start(workers), steps).stopper == Returned
    ensures var p := After(Start(workers), steps);
      multiset(p.finished) == multiset(p.accepted) <==> workers > 0 || p.accepted == []
  {
    Reachable(workers, steps);
    var p := After(Start(workers), steps);
    if workers > 0 {
      assert p.workers[0] in p.workers;
      forall task ensures multiset(p.finished)[task] == multiset(p.accepted)[task] {
        EachTaskOnce(workers, steps, task);
        HeldNothing(p.workers, task);
      }
    } else {
      NobodyFinishes(Start(0), steps);
      assert |multiset(p.accepted)| == |p.accepted|;
    }
  }

  /** A pool without workers: a task is accepted, Stop returns, and the task is still in the queue. */
  lemma NobodyToRunIt(task: Task)
    ensures var steps := [AddTask(task), SetStop, Broadcast, Join];
      && IsRun(Start(0), steps)
      && var p := After(Start(0), steps);
         p.stopper == Returned && p.accepted == [task] && p.queue == [task] && p.finished == []
  {
    var a := Next(Start(0), AddTask(task));
    var b := Next(a, SetStop);
    var c := Next(b, Broadcast);
    assert c.workers == [];
    assert [Join][1..] == [];
    Cons(c, Join, []);
    Cons(b, Broadcast, [Join]);
    Cons(a, SetStop, [Broadcast, Join]);
    Cons(Start(0), AddTask(task), [SetStop, Broadcast, Join]);
    assert [Join] == [Join] + [] && [Broadcast, Join] == [Broadcast] + [Join];
    assert [SetStop, Broadcast, Join] == [SetStop] + [Broadcast, Join];
    assert [AddTask(task), SetStop, Broadcast, Join] == [AddTask(task)] + [SetStop, Broadcast, Join];
  }

  lemma Cons(p: Pool, step: Step, rest: seq<Step>)
    requires Enabled(p, step) && IsRun(Next(p, step), rest)
    ensures IsRun(p, [step] + rest) && After(p, [step] + rest) == After(Next(p, step), rest)
  {
    assert ([step] + rest)[1..] == rest;
  }

  lemma {:induction false} NobodyFinishes(p: Pool, steps: seq<Step>)
    requires IsRun(p, steps) && p.workers == [] && p.finished == []
    ensures After(p, steps).finished == []
    decreases steps
  {
    if steps != [] { NobodyFinishes(Next(p, steps[0]), steps[1..]); }
  }

  // ---------- What is accepted ----------

  /** The tasks added before Stop was called. */
  function AddedBeforeStop(steps: seq<Step>): seq<Task> {
    if steps == [] || steps[0].SetStop? then []
    else (if steps[0].AddTask? then [steps[0].task] else []) + AddedBeforeStop(steps[1..])
  }

  lemma {:induction false} StoppedAcceptsNothing(p: Pool, steps: seq<Step>)
    requires p.stop && IsRun(p, steps)
    ensures After(p, steps).accepted == p.accepted
    decreases steps
  {
    if steps != [] { StoppedAcceptsNothing(Next(p, steps[0]), steps[1..]); }
  }

  /** A pool accepts exactly the tasks that are added before it is stopped, in their order. */
  lemma {:induction false} AcceptedIsAdded(p: Pool, steps: seq<Step>)
    requires !p.stop && IsRun(p, steps)
    ensures After(p, steps).accepted == p.accepted + AddedBeforeStop(steps)
    decreases steps
  {
    if steps == [] {
      assert p.accepted + [] == p.accepted;
    } else if steps[0].SetStop? {
      StoppedAcceptsNothing(Next(p, steps[0]), steps[1..]);
      assert p.accepted + [] == p.accepted;
    } else {
      AcceptedIsAdded(Next(p, steps[0]), steps[1..]);
      Associate(p.accepted, if steps[0].AddTask? then [steps[0].task] else [], AddedBeforeStop(steps[1..]));
      assert p.accepted + [] == p.accepted;
    }
  }

  // ---------- No busy waiting ----------

  function Effort(w: Worker): nat {
    match w
    case Awake => 1
    case Running(_) => 2
    case _ => 0
  }

  function Efforts(workers: seq<Worker>): nat {
    if workers == [] then 0
    else Efforts(workers[..|workers| - 1]) + Effort(workers[|workers| - 1])
  }

  lemma {:induction false} EffortsUpdate(workers: seq<Worker>, i: nat, w: Worker)
    requires i < |workers|
    ensures Efforts(workers[i := w]) + Effort(workers[i]) == Efforts(workers) + Effort(w)
    decreases |workers|
  {
    var n := |workers| - 1;
    var updated := workers[i := w];
    if i < n {
      EffortsUpdate(workers[..n], i, w);
      assert updated[..n] == workers[..n][i := w];
    } else {
      assert updated[..n] == workers[..n];
    }
  }

  lemma {:induction false} EffortsOfAwake(a: seq<Worker>, b: seq<Worker>)
    requires |a| == |b| && forall i :: 0 <= i < |a| ==> Effort(b[i]) <= Effort(a[i]) + 1
    ensures Efforts(b) <= Efforts(a) + |a|
    decreases |a|
  {
    if a != [] {
      var n := |a| - 1;
      assert forall i :: 0 <= i < n ==> a[..n][i] == a[i] && b[..n][i] == b[i];
      EffortsOfAwake(a[..n], b[..n]);
    }
  }

  function Load(p: Pool): nat {
    2 * |p.queue| + Efforts(p.workers)
  }

  /** What a step gives the workers to do: two steps for a task, one for a wakeup, one for each when all are woken. */
  function Given(p: Pool, step: Step): nat {
    match step
    case AddTask(_) => 2
    case Signal(_) => 1
    case Spurious(_) => 1
    case Broadcast => |p.workers|
    case _ => 0
  }

  function ByWorker(step: Step): nat {
    if step.Lock? || step.Done? then 1 else 0
  }

  lemma StepLoad(p: Pool, step: Step)
    requires Enabled(p, step)
    ensures ByWorker(step) + Load(Next(p, step)) <= Load(p) + Given(p, step)
    ensures |Next(p, step).workers| == |p.workers|
  {
    match step
    case Signal(i) => if i < |p.workers| && p.workers[i] == Asleep { EffortsUpdate(p.workers, i, Awake); }
    case Spurious(i) => EffortsUpdate(p.workers, i, Awake);
    case Lock(i) => EffortsUpdate(p.workers, i, Look(p, i).workers[i]);
    case Done(i) => EffortsUpdate(p.workers, i, Awake);
    case Broadcast => EffortsOfAwake(p.workers, WakeAll(p.workers));
    case _ =>
  }

  ghost function GivenAll(p: Pool, steps: seq<Step>): nat
    requires IsRun(p, steps)
    decreases steps
  {
    if steps == [] then 0 else Given(p, steps[0]) + GivenAll(Next(p, steps[0]), steps[1..])
  }

  function ByWorkers(steps: seq<Step>): nat {
    if steps == [] then 0 else ByWorker(steps[0]) + ByWorkers(steps[1..])
  }

  /** Workers do not spin: the steps they take in any run are bounded by the tasks added and the wakeups given. */
  lemma {:induction false} WorkIsBounded(p: Pool, steps: seq<Step>)
    requires IsRun(p, steps)
    ensures ByWorkers(steps) + Load(After(p, steps)) <= Load(p) + GivenAll(p, steps)
    decreases steps
  {
    if steps != [] {
      StepLoad(p, steps[0]);
      WorkIsBounded(Next(p, steps[0]), steps[1..]);
    }
  }

  // ---------- Stop returns ----------

  function Weight(w: Worker): nat {
    match w
    case Exited => 0
    case Awake => 1
    case _ => 2
  }

  function Weights(workers: seq<Worker>): nat {
    if workers == [] then 0
    else Weights(workers[..|workers| - 1]) + Weight(workers[|workers| - 1])
  }

  lemma {:induction false} WeightsUpdate(workers: seq<Worker>, i: nat, w: Worker)
    requires i < |workers|
    ensures Weights(workers[i := w]) + Weight(workers[i]) == Weights(workers) + Weight(w)
    decreases |workers|
  {
    var n := |workers| - 1;
    var updated := workers[i := w];
    if i < n {
      WeightsUpdate(workers[..n], i, w);
      assert updated[..n] == workers[..n][i := w];
    } else {
      assert updated[..n] == workers[..n];
    }
  }

  lemma {:induction false} WeightsBelow(a: seq<Worker>, b: seq<Worker>)
    requires |a| == |b| && forall i :: 0 <= i < |a| ==> Weight(a[i]) <= Weight(b[i])
    ensures Weights(a) <= Weights(b)
    decreases |a|
  {
    if a != [] {
      var n := |a| - 1;
      assert forall i :: 0 <= i < n ==> a[..n][i] == a[i] && b[..n][i] == b[i];
      WeightsBelow(a[..n], b[..n]);
    }
  }

  /** An upper bound on the steps that workers and stopper still take once stop_ is set. */
  function Remaining(p: Pool): nat {
    2 * |p.queue| + Weights(p.workers) +
    match p.stopper { case NotYet => 3 case Set => 2 case Joining => 1 case Returned => 0 }
  }

  predicate Progress(step: Step) {
    step.Lock? || step.Done? || step.Broadcast? || step.Join?
  }

  lemma StepDecreases(p: Pool, step: Step)
    requires Inv(p) && p.stop && Enabled(p, step)
    ensures Next(p, step).stop
    ensures Remaining(Next(p, step)) <= Remaining(p) - if Progress(step) then 1 else 0
  {
    match step
    case Signal(i) => if Asleep in p.workers { WeightsUpdate(p.workers, i, Awake); }
    case Spurious(i) => WeightsUpdate(p.workers, i, Awake);
    case Lock(i) => WeightsUpdate(p.workers, i, Look(p, i).workers[i]);
    case Done(i) => WeightsUpdate(p.workers, i, Awake);
    case Broadcast => WeightsBelow(WakeAll(p.workers), p.workers);
    case _ =>
  }

  function ProgressSteps(steps: seq<Step>): nat {
    if steps == [] then 0 else (if Progress(steps[0]) then 1 else 0) + ProgressSteps(steps[1..])
  }

  /** Once stop_ is set, only boundedly many steps of workers and stopper remain, however the rest interleaves. */
  lemma {:induction false} StopTakesBoundedSteps(p: Pool, steps: seq<Step>)
    requires Inv(p) && p.stop && IsRun(p, steps)
    ensures ProgressSteps(steps) + Remaining(After(p, steps)) <= Remaining(p)
    decreases steps
  {
    if steps != [] {
      StepKeeps(p, steps[0]);
      StepDecreases(p, steps[0]);
      StopTakesBoundedSteps(Next(p, steps[0]), steps[1..]);
    }
  }

  /** And until Stop returns one of those steps is always possible. */
  lemma StopCanAdvance(p: Pool)
    requires Inv(p) && p.stop && p.stopper != Returned
    ensures exists step :: Progress(step) && Enabled(p, step)
  {
    if p.stopper == Set {
      assert Enabled(p, Broadcast) && Progress(Broadcast);
    } else if i: nat :| i < |p.workers| && p.workers[i] != Exited {
      assert p.workers[i] in p.workers;
      var step := if p.workers[i] == Awake then Lock(i) else Done(i);
      assert Enabled(p, step) && Progress(step);
    } else {
      assert Enabled(p, Join) && Progress(Join);
    }
  }
}

module PoolCode {
  import opened Prelude
  import opened PoolSpec

  class ThreadPool {
    var taskQueue: seq<Task>
    var stop: bool
    const threads: array<Worker>
    var stopper: Stopper
    ghost var signals: nat
    ghost var accepted: seq<Task>
    ghost var taken: seq<Task>
    ghost var finished: seq<Task>

    ghost function View(): Pool
      reads this, threads
    {
      Pool(taskQueue, stop, threads[..], stopper, signals, accepted, taken, finished)
    }

    constructor (threadCount: nat)
      ensures View() == Start(threadCount) && fresh(threads)
    {
      taskQueue, stop, stopper := [], false, NotYet;
      threads := new Worker[threadCount](_ => Awake);
      signals, accepted, taken, finished := 0, [], [], [];
    }

    /** AddTask up to the unlock. */
    method Push(task: Task)
      modifies this
      ensures View() == PoolSpec.Push(old(View()), task)
    {
      if !stop {
        taskQueue := taskQueue + [task];
        accepted := accepted + [task];
      }
      signals := signals + 1;
    }

    /** One locked pass of Run: to sleep, out of the loop, or away with a task. */
    method Look(i: nat)
      requires i < threads.Length && threads[i] == Awake
      modifies this`taskQueue, this`taken, threads
      ensures View() == PoolSpec.Look(old(View()), i)
    {
      if |taskQueue| == 0 && !stop {
        threads[i] := Asleep;
        return;
      }
      if stop && |taskQueue| == 0 {
        threads[i] := Exited;
        return;
      }
      var task := taskQueue[0];
      taskQueue := taskQueue[1..];
      taken := taken + [task];
      threads[i] := Running(task);
    }

    /** The call of the task, or none when it is empty. */
    method Finish(i: nat) returns (called: bool)
      requires i < threads.Length && threads[i].Running?
      modifies this`finished, threads
      ensures View() == PoolSpec.Finish(old(View()), i)
      ensures called <==> old(threads[i].task.Work?)
    {
      called := threads[i].task.Work?;
      finished := finished + [threads[i].task];
      threads[i] := Awake;
    }

    /** The loop of a worker that meets stop_ set and no rival: it empties the queue in order and leaves. */
    method Run(i: nat)
      requires i < threads.Length && threads[i] == Awake && stop
      modifies this`taskQueue, this`taken, this`finished, threads
      ensures taskQueue == [] && finished == old(finished) + old(taskQueue) && taken == old(taken) + old(taskQueue)
      ensures threads[..] == old(threads[..])[i := Exited]
    {
      while threads[i] == Awake
        invariant threads[i] == Awake || (threads[i] == Exited && taskQueue == [])
        invariant forall k :: 0 <= k < threads.Length && k != i ==> threads[k] == old(threads[k])
        invariant taken + taskQueue == old(taken) + old(taskQueue)
        invariant finished + taskQueue == old(finished) + old(taskQueue)
        decreases |taskQueue|, threads[i] == Awake
      {
        RunOne(i);
      }
      assert threads[..] == old(threads[..])[i := Exited];
    }

    /** One turn of that loop. */
    method RunOne(i: nat)
      requires i < threads.Length && threads[i] == Awake && stop
      modifies this`taskQueue, this`taken, this`finished, threads
      ensures threads[i] == if old(taskQueue) == [] then Exited else Awake
      ensures forall k :: 0 <= k < threads.Length && k != i ==> threads[k] == old(threads[k])
      ensures taskQueue == if old(taskQueue) == [] then [] else old(taskQueue)[1..]
      ensures taken + taskQueue == old(taken) + old(taskQueue)
      ensures finished + taskQueue == old(finished) + old(taskQueue)
    {
      ghost var before := taskQueue;
      ghost var out := taken;
      Look(i);
      assert View().workers[i] == threads[i];
      if threads[i].Running? {
        MoveHead(out, before);
        MoveHead(finished, before);
        var _ := Finish(i);
      }
    }

    method SetStop() returns (first: bool)
      modifies this`stop, this`stopper
      ensures first <==> !old(stop)
      ensures View() == if old(stop) then old(View()) else old(View()).(stop := true, stopper := Set)
    {
      first := !stop;
      if first {
        stop := true;
        stopper := Set;
      }
    }

    method Broadcast()
      requires stopper == Set
      modifies this`stopper, threads
      ensures View() == old(View()).(workers := WakeAll(old(View()).workers), stopper := Joining)
    {
      var i := 0;
      while i < threads.Length
        invariant 0 <= i <= threads.Length
        invariant forall k :: 0 <= k < i ==> threads[k] == if old(threads[k]) == Asleep then Awake else old(threads[k])
        invariant forall k :: i <= k < threads.Length ==> threads[k] == old(threads[k])
      {
        if threads[i] == Asleep {
          threads[i] := Awake;
        }
        i := i + 1;
      }
      assert threads[..] == WakeAll(old(threads[..]));
      stopper := Joining;
    }

    /** The join loop goes through only when every worker has left. */
    method Join() returns (returned: bool)
      requires stopper == Joining
      modifies this`stopper
      ensures returned <==> forall i :: 0 <= i < threads.Length ==> threads[i] == Exited
      ensures View() == if returned then old(View()).(stopper := Returned) else old(View())
    {
      var i := 0;
      while i < threads.Length
        invariant 0 <= i <= threads.Length
        invariant forall k :: 0 <= k < i ==> threads[k] == Exited
      {
        if threads[i] != Exited {
          return false;
        }
        i := i + 1;
      }
      stopper := Returned;
      returned := true;
    }
  }
}
