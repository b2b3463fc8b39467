/** Which comments a restart brings back that were missing before it: those whose push was overtaken. */
module CommentOvertaking {
  import opened Prelude
  import opened CommentSpec
  import opened CommentTheorems

  // ---------- Overtaken pushes ----------

  predicate SameSlot(a: nat, b: nat) {
    a % SLOTS == b % SLOTS
  }

  /** The slot of q was written by its push at step i, and later, at step j, by the push of an older ticket. */
  predicate OvertakenAt(steps: seq<Step>, q: nat, older: nat, i: nat, j: nat) {
    i < j < |steps| && steps[i] == Write(q) && steps[j] == Write(older) && older < q && SameSlot(older, q)
  }

  ghost predicate Overtaken(steps: seq<Step>, q: nat) {
    exists older: nat, i: nat, j: nat :: OvertakenAt(steps, q, older, i, j)
  }

  // ---------- What a run does to one slot ----------

  /** The last ticket whose push wrote into slot i. */
  function LastWrite(steps: seq<Step>, i: nat): Option<nat> {
    if steps == [] then None
    else
      var last := steps[|steps| - 1];
      if last.Write? && last.q % SLOTS == i then Some(last.q) else LastWrite(steps[..|steps| - 1], i)
  }

  lemma {:induction false} LastWriteAt(steps: seq<Step>, i: nat) returns (k: nat)
    ensures LastWrite(steps, i).None? ==> forall j :: 0 <= j < |steps| && steps[j].Write? ==> steps[j].q % SLOTS != i
    ensures LastWrite(steps, i).Some? ==>
      && k < |steps| && steps[k] == Write(LastWrite(steps, i).value) && LastWrite(steps, i).value % SLOTS == i
      && forall j :: k < j < |steps| && steps[j].Write? ==> steps[j].q % SLOTS != i
  {
    k := 0;
    if steps != [] {
      var n := |steps| - 1;
      if steps[n].Write? && steps[n].q % SLOTS == i {
        k := n;
      } else {
        k := LastWriteAt(steps[..n], i);
      }
    }
  }

  lemma StepSequence(s: Repo, step: Step, i: nat)
    requires Enabled(s, step) && i < SLOTS
    ensures var t := Next(s, step);
      |t.ring| == SLOTS &&
      t.ring[i].sequence == if step.Write? && step.q % SLOTS == i then step.q + 1 else s.ring[i].sequence
  {
  }

  lemma {:induction false} RunSnoc(s: Repo, steps: seq<Step>)
    requires IsRun(s, steps) && steps != []
    ensures var n := |steps| - 1;
      && IsRun(s, steps[..n]) && Enabled(After(s, steps[..n]), steps[n])
      && After(s, steps) == Next(After(s, steps[..n]), steps[n])
    decreases steps
  {
    var n := |steps| - 1;
    if n > 0 {
      var rest := steps[1..];
      RunSnoc(Next(s, steps[0]), rest);
      assert rest[..n - 1] == steps[..n][1..] && rest[n - 1] == steps[n];
    } else {
      assert steps[1..] == [];
    }
  }

  /** A slot carries the number of the last push that wrote it; erasing changes the row but not the number. */
  lemma {:induction false} SlotSequence(s: Repo, steps: seq<Step>, i: nat)
    requires IsRun(s, steps) && |s.ring| == SLOTS && i < SLOTS
    ensures |After(s, steps).ring| == SLOTS
    ensures After(s, steps).ring[i].sequence ==
      match LastWrite(steps, i) case Some(q) => q + 1 case None => s.ring[i].sequence
    decreases |steps|
  {
    if steps != [] {
      var n := |steps| - 1;
      RunSnoc(s, steps);
      SlotSequence(s, steps[..n], i);
      StepSequence(After(s, steps[..n]), steps[n], i);
    }
  }

  // ---------- Each ticket is written once ----------

  /** The push of q is over: its ticket was taken and its slot written. */
  predicate Over(s: Repo, q: nat) {
    q < s.next && q !in s.pushing
  }

  lemma OverStep(s: Repo, step: Step, q: nat)
    requires Enabled(s, step)
    ensures Over(s, q) ==> step != Write(q) && Over(Next(s, step), q)
    ensures !Over(s, q) && Over(Next(s, step), q) ==> step == Write(q)
  {
  }

  lemma {:induction false} OverStays(s: Repo, steps: seq<Step>, q: nat)
    requires IsRun(s, steps) && Over(s, q)
    ensures Over(After(s, steps), q) && forall i :: 0 <= i < |steps| ==> steps[i] != Write(q)
    decreases steps
  {
    if steps != [] {
      OverStep(s, steps[0], q);
      OverStays(Next(s, steps[0]), steps[1..], q);
      assert forall i :: 0 < i < |steps| ==> steps[i] == steps[1..][i - 1];
    }
  }

  /** A push that gets over in the run is written at exactly one step of it, and its ticket stands in its slot only
      from then on. */
  lemma {:induction false} WrittenOnce(s: Repo, steps: seq<Step>, q: nat) returns (i: nat)
    requires IsRun(s, steps) && !Over(s, q) && (q in s.pushing ==> q < s.next)
    ensures Over(After(s, steps), q) ==>
      i < |steps| && steps[i] == Write(q) && forall j :: 0 <= j < |steps| && j != i ==> steps[j] != Write(q)
    ensures !Over(After(s, steps), q) ==> forall j :: 0 <= j < |steps| ==> steps[j] != Write(q)
    decreases steps
  {
    i := 0;
    if steps != [] {
      var t := Next(s, steps[0]);
      OverStep(s, steps[0], q);
      assert forall j :: 0 < j < |steps| ==> steps[j] == steps[1..][j - 1];
      if Over(t, q) {
        OverStays(t, steps[1..], q);
      } else {
        i := WrittenOnce(t, steps[1..], q);
        i := i + 1;
      }
    }
  }

  // ---------- A ticket of the window ----------

  lemma NewerIsOutside(q: nat, newer: nat, next: nat)
    requires SameSlot(q, newer) && q < newer < next
    ensures q < WindowStart(next)
  {
  }

  /** Nothing writes the slot of q behind its own push: it was not overtaken. */
  lemma LastIsNotOvertaken(steps: seq<Step>, q: nat, i: nat)
    requires forall j :: 0 <= j < |steps| && j != i ==> steps[j] != Write(q)
    requires forall j :: i < j < |steps| && steps[j].Write? ==> steps[j].q % SLOTS != q % SLOTS
    ensures !Overtaken(steps, q)
  {
    forall older: nat, a: nat, b: nat ensures !OvertakenAt(steps, q, older, a, b) {}
  }

  /** A comment of this session that is in the window still has its slot exactly when it was not overtaken. */
  lemma NewTicketHolds(t: Table, steps: seq<Step>, q: nat)
    requires IsRun(Recover(t), steps)
    requires var s := After(Recover(t), steps);
      s.pushing == map[] && Recover(t).next <= q < s.next && WindowStart(s.next) <= q
    ensures |After(Recover(t), steps).ring| == SLOTS
    ensures Holds(After(Recover(t), steps).ring, q) <==> !Overtaken(steps, q)
  {
    var i := WrittenOnce(Recover(t), steps, q);
    var k := LastWriteAt(steps, q % SLOTS);
    SlotSequence(Recover(t), steps, q % SLOTS);
    assert steps[i] == Write(q);
    var x := LastWrite(steps, q % SLOTS).value;
    if x == q {
      LastIsNotOvertaken(steps, q, i);
    } else {
      RecoverHolds(t);
      WriteIsBelowNext(Recover(t), steps, k);
      if x > q { NewerIsOutside(q, x, After(Recover(t), steps).next); }
      assert OvertakenAt(steps, q, x, i, k);
    }
  }

  lemma {:induction false} WriteIsBelowNext(s: Repo, steps: seq<Step>, k: nat)
    requires Inv(s) && IsRun(s, steps) && k < |steps| && steps[k].Write?
    ensures s.first <= steps[k].q < After(s, steps).next
    decreases steps
  {
    if k > 0 {
      StepKeeps(s, steps[0]);
      FirstStays(s, steps[0]);
      assert steps[k] == steps[1..][k - 1];
      WriteIsBelowNext(Next(s, steps[0]), steps[1..], k - 1);
    } else {
      NextGrows(s, steps);
    }
  }

  lemma FirstStays(s: Repo, step: Step)
    requires Enabled(s, step)
    ensures Next(s, step).first == s.first
  {
  }

  lemma {:induction false} NextGrows(s: Repo, steps: seq<Step>)
    requires IsRun(s, steps)
    ensures s.next <= After(s, steps).next && After(s, steps).first == s.first && After(s, steps).old_ == s.old_
    decreases steps
  {
    if steps != [] { NextGrows(Next(s, steps[0]), steps[1..]); }
  }

  /** A number below those of this session is written by no push of it. */
  lemma NeverWritten(t: Table, steps: seq<Step>, q: nat)
    requires IsRun(Recover(t), steps) && q < Recover(t).next
    ensures !Overtaken(steps, q)
  {
    OverStays(Recover(t), steps, q);
  }

  /** A comment of an earlier session that is in the window keeps its slot: a push of this session into the slot
      would have pushed it out of the window. */
  lemma OldTicketHolds(t: Table, steps: seq<Step>, q: nat)
    requires IsRun(Recover(t), steps) && q in t
    requires WindowStart(After(Recover(t), steps).next) <= q
    ensures |After(Recover(t), steps).ring| == SLOTS
    ensures Holds(After(Recover(t), steps).ring, q) && !Overtaken(steps, q)
  {
    var s0, s := Recover(t), After(Recover(t), steps);
    var slot := q % SLOTS;
    RecoverHolds(t);
    NextGrows(s0, steps);
    assert q <= MaxOf(t.Keys);
    RecoveredSlot(t, q);
    SlotSequence(s0, steps, slot);
    var k := LastWriteAt(steps, slot);
    if LastWrite(steps, slot).Some? {
      WriteIsBelowNext(s0, steps, k);
      NewerIsOutside(q, LastWrite(steps, slot).value, s.next);
      assert false;
    }
    NeverWritten(t, steps, q);
  }

  /** A clean stop: the worker is gone with nothing left to do, no push is in flight, SQLite refused nothing. */
  predicate CleanlyStopped(s: Repo) {
    s.worker.Exited? && s.queue == [] && s.pushing == map[] && !s.failed
  }

  lemma TicketHolds(t: Table, steps: seq<Step>, q: nat)
    requires IsRun(Recover(t), steps) && CleanlyStopped(After(Recover(t), steps))
    requires var s := After(Recover(t), steps); WindowStart(s.next) <= q < s.next
    ensures var s := After(Recover(t), steps);
      && |s.ring| == SLOTS
      && (q in s.table ==> (Holds(s.ring, q) <==> !Overtaken(steps, q)))
      && (Overtaken(steps, q) ==> q in s.table)
  {
    var s := After(Recover(t), steps);
    RecoverHolds(t);
    RunKeeps(Recover(t), steps);
    NextGrows(Recover(t), steps);
    CleanStopNext(s);
    if q >= s.first {
      NewTicketHolds(t, steps, q);
    } else if q in t {
      OldTicketHolds(t, steps, q);
    } else {
      NeverWritten(t, steps, q);
    }
  }

  /** A clean stop and a restart: the next sequence number is the same, the latest list before is a subsequence of the
      one after, and they are equal exactly when no comment of the window was overtaken in the session. */
  lemma RestartRestores(t: Table, steps: seq<Step>)
    requires IsRun(Recover(t), steps) && CleanlyStopped(After(Recover(t), steps))
    ensures var s := After(Recover(t), steps);
      var r := Recover(s.table);
      && |s.ring| == SLOTS && r.next == s.next
      && Subsequence(Latest(s), Latest(r))
      && (Latest(s) == Latest(r) <==> forall q: nat :: WindowStart(s.next) <= q < s.next ==> !Overtaken(steps, q))
  {
    var s := After(Recover(t), steps);
    RestartBySlots(t, steps);
    forall q: nat | WindowStart(s.next) <= q < s.next
      ensures (q in s.table ==> Holds(s.ring, q)) <==> !Overtaken(steps, q)
    {
      TicketHolds(t, steps, q);
    }
  }

  // ---------- A session with an overtaken push ----------

  lemma {:induction false} Append(s: Repo, a: seq<Step>, b: seq<Step>)
    requires IsRun(s, a) && IsRun(After(s, a), b)
    ensures IsRun(s, a + b) && After(s, a + b) == After(After(s, a), b)
    decreases a
  {
    if a == [] {
      assert a + b == b;
    } else {
      assert (a + b)[1..] == a[1..] + b;
      Append(Next(s, a[0]), a[1..], b);
    }
  }

  lemma Extend(s: Repo, steps: seq<Step>, step: Step)
    requires IsRun(s, steps) && Enabled(After(s, steps), step)
    ensures IsRun(s, steps + [step]) && After(s, steps + [step]) == Next(After(s, steps), step)
  {
    var t := After(s, steps);
    var one := [step];
    assert one[0] == step && one[1..] == [];
    assert IsRun(Next(t, one[0]), one[1..]);
    assert After(t, one) == After(Next(t, one[0]), one[1..]);
    Append(s, steps, one);
  }

  /** Nothing is under way, and the worker waits. */
  predicate Resting(s: Repo) {
    |s.ring| == SLOTS && s.worker.Idle? && s.local == [] && !s.failed
  }

  /** A producer that is alone: ticket and slot right after each other. */
  function Push(s: Repo, row: Row): seq<Step> {
    [Ticket(row), Write(s.next)]
  }

  lemma PushRuns(s: Repo, row: Row)
    requires Resting(s) && s.next !in s.pushing
    ensures IsRun(s, Push(s, row))
    ensures var t := After(s, Push(s, row)); Resting(t) && t.next == s.next + 1 && t.pushing == s.pushing
  {
    Extend(s, [], Ticket(row));
    assert [] + [Ticket(row)] == [Ticket(row)];
    Extend(s, [Ticket(row)], Write(s.next));
    assert [Ticket(row)] + [Write(s.next)] == Push(s, row);
  }

  /** n such pushes while an older one waits between its ticket and its slot. */
  lemma {:induction false} PushesRun(s: Repo, row: Row, n: nat) returns (steps: seq<Step>)
    requires Resting(s) && forall q :: q in s.pushing ==> q < s.next
    ensures IsRun(s, steps)
    ensures var t := After(s, steps); Resting(t) && t.next == s.next + n && t.pushing == s.pushing
    ensures n > 0 ==> steps != [] && steps[|steps| - 1] == Write(s.next + n - 1)
    decreases n
  {
    steps := [];
    if n > 0 {
      steps := PushesRun(s, row, n - 1);
      var t := After(s, steps);
      PushRuns(t, row);
      Append(s, steps, Push(t, row));
      steps := steps + Push(t, row);
    }
  }

  /** The worker writes the whole queue and leaves. */
  lemma DrainAndExit(s: Repo) returns (steps: seq<Step>)
    requires Resting(s) && s.queue != [] && s.pushing == map[]
    ensures IsRun(s, steps) && CleanlyStopped(After(s, steps)) && After(s, steps).next == s.next
  {
    steps := [];
    Extend(s, steps, TakeQueue);
    steps := [TakeQueue];
    var a := After(s, steps);
    Extend(s, steps, BeginTxn(true));
    steps := steps + [BeginTxn(true)];
    var b := After(s, steps);
    var execs := BatchRuns(b);
    Append(s, steps, execs);
    steps := steps + execs;
    Extend(s, steps, EndTxn(true));
    steps := steps + [EndTxn(true)];
    Extend(s, steps, StopFlag);
    steps := steps + [StopFlag];
    Extend(s, steps, Exit);
    steps := steps + [Exit];
  }

  lemma {:induction false} BatchRuns(s: Repo) returns (steps: seq<Step>)
    requires |s.ring| == SLOTS && s.worker == Batch(true)
    ensures IsRun(s, steps) && After(s, steps) == s.(local := [], txn := After(s, steps).txn)
    decreases |s.local|
  {
    steps := [];
    if s.local != [] {
      var rest := BatchRuns(Next(s, Exec(true)));
      steps := [Exec(true)] + rest;
      assert steps[1..] == rest;
    }
  }

  /** A ring's worth of comments overtakes the first one, which then writes its slot after all: the newest of them
      is missing from the latest list until the restart brings it back. */
  lemma OvertakenRun(row: Row) returns (steps: seq<Step>)
    ensures IsRun(Recover(map[]), steps)
    ensures var s := After(Recover(map[]), steps);
      && CleanlyStopped(s) && Overtaken(steps, SLOTS)
      && |s.ring| == SLOTS && Latest(s) != Latest(Recover(s.table))
  {
    var s0 := Recover(map[]);
    RecoverHolds(map[]);
    steps := [];
    Extend(s0, steps, Ticket(row));
    steps := [Ticket(row)];
    var more := PushesRun(After(s0, steps), row, SLOTS);
    Append(s0, steps, more);
    steps := steps + more;
    var i := |steps| - 1;
    assert steps[i] == Write(SLOTS);
    Extend(s0, steps, Write(0));
    steps := steps + [Write(0)];
    var rest := DrainAndExit(After(s0, steps));
    Append(s0, steps, rest);
    steps := steps + rest;
    assert OvertakenAt(steps, SLOTS, 0, i, i + 1);
    RestartRestores(map[], steps);
  }
}
