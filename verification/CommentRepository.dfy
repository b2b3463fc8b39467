/** The comment ring with its write-behind table (app/repository/CommentRepository.cpp). Sequence numbers
    are unbounded here; a session stays far below 2^64. */
module CommentSpec {
  import opened Prelude

  // MAX_MEM_COMMENTS
  const SLOTS: nat := 50

  datatype Row = Row(nickname: string, content: string, ip: string)

  // A ring slot: sequence is the comment's number plus one, 0 while the slot is empty.
  datatype Slot = Slot(sequence: nat, row: Row)

  type Table = map<nat, Row>

  datatype Task = Insert(seqNo: nat, row: Row) | Update(seqNo: nat, nickname: string, content: string)

  const EMPTY_SLOT := Slot(0, Row("", "", ""))
  const ERASED_NICK := "[AI 已拦截]"
  const ERASED_CONTENT := "⚠️ 此条留言因违规已被 AI Agent 执行无锁原子抹除。"

  /** INSERT OR REPLACE, and UPDATE of two columns. */
  function Apply(t: Table, task: Task): Table {
    match task
    case Insert(q, row) => t[q := row]
    case Update(q, nickname, content) =>
      if q in t then t[q := t[q].(nickname := nickname, content := content)] else t
  }

  function ApplyAll(t: Table, tasks: seq<Task>): Table
    decreases tasks
  {
    if tasks == [] then t else ApplyAll(Apply(t, tasks[0]), tasks[1..])
  }

  // The worker: at its wait, with a batch in hand, in a transaction, gone.
  datatype Worker = Idle | Begin | Batch(allOk: bool) | Exited

  /** pushing holds the comments whose ticket is taken and whose slot is not written yet. txn is the table as the
      open transaction sees it. failed says that SQLite refused something. first and old describe the table
      this session started from: the first ticket and the sequence numbers stored before. */
  datatype Repo = Repo(
    next: nat, ring: seq<Slot>, pushing: map<nat, Row>, queue: seq<Task>, local: seq<Task>,
    txn: Table, table: Table, worker: Worker, stop: bool, failed: bool, first: nat, old_: set<nat>)

  function TakeTicket(s: Repo, row: Row): Repo {
    s.(next := s.next + 1, pushing := s.pushing[s.next := row])
  }

  /** The slot-locked part of PushComment. */
  function WriteSlot(s: Repo, q: nat): Repo
    requires q in s.pushing && |s.ring| == SLOTS
  {
    s.(ring := s.ring[q % SLOTS := Slot(q + 1, s.pushing[q])], queue := s.queue + [Insert(q, s.pushing[q])],
       pushing := s.pushing - {q})
  }

  function EraseComment(s: Repo, q: nat): Repo
    requires |s.ring| == SLOTS
  {
    var slot := s.ring[q % SLOTS];
    if slot.sequence == q + 1 then
      s.(ring := s.ring[q % SLOTS := slot.(row := slot.row.(nickname := ERASED_NICK, content := ERASED_CONTENT))],
         queue := s.queue + [Update(q, ERASED_NICK, ERASED_CONTENT)])
    else s
  }

  datatype Step =
    | Ticket(row: Row)
    | Write(q: nat)
    | Erase(q: nat)
    | StopFlag
    | TakeQueue
    | BeginTxn(ok: bool)
    | Exec(ok: bool)
    | EndTxn(ok: bool)
    | Exit

  predicate Enabled(s: Repo, step: Step) {
    && |s.ring| == SLOTS
    && match step
       case Write(q) => q in s.pushing
       case TakeQueue => s.worker.Idle? && s.queue != []
       case BeginTxn(_) => s.worker.Begin?
       case Exec(_) => s.worker.Batch? && s.local != []
       case EndTxn(_) => s.worker.Batch? && s.local == []
       case Exit => s.worker.Idle? && s.queue == [] && s.stop
       case _ => true
  }

  function Next(s: Repo, step: Step): Repo
    requires Enabled(s, step)
  {
    match step
    case Ticket(row) => TakeTicket(s, row)
    case Write(q) => WriteSlot(s, q)
    case Erase(q) => EraseComment(s, q)
    case StopFlag => s.(stop := true)
    case TakeQueue => s.(local := s.queue, queue := [], worker := Begin)
    case BeginTxn(ok) =>
      if ok then s.(txn := s.table, worker := Batch(true)) else s.(local := [], failed := true, worker := Idle)
    case Exec(ok) =>
      if ok then s.(txn := Apply(s.txn, s.local[0]), local := s.local[1..])
      else s.(local := s.local[1..], failed := true, worker := Batch(false))
    case EndTxn(ok) =>
      if ok && s.worker.allOk then s.(table := s.txn, worker := Idle) else s.(failed := true, worker := Idle)
    case Exit => s.(worker := Exited)
  }

  predicate IsRun(s: Repo, steps: seq<Step>)
    decreases steps
  {
    steps == [] || (Enabled(s, steps[0]) && IsRun(Next(s, steps[0]), steps[1..]))
  }

  function After(s: Repo, steps: seq<Step>): Repo
    requires IsRun(s, steps)
    decreases steps
  {
    if steps == [] then s else After(Next(s, steps[0]), steps[1..])
  }

  // ---------- Recovery ----------

  ghost predicate IsMax(keys: set<nat>, m: nat) {
    m in keys && forall k :: k in keys ==> k <= m
  }

  lemma {:induction false} MaxExists(keys: set<nat>)
    requires keys != {}
    ensures exists m :: IsMax(keys, m)
    decreases |keys|
  {
    var x :| x in keys;
    var rest := keys - {x};
    if rest == {} {
      assert keys == {x};
      assert IsMax(keys, x);
    } else {
      MaxExists(rest);
      var m :| IsMax(rest, m);
      var top: nat := if x < m then m else x;
      forall k | k in keys ensures k <= top { assert k == x || k in rest; }
      assert IsMax(keys, top);
    }
  }

  ghost function MaxOf(keys: set<nat>): (m: nat)
    requires keys != {}
    ensures IsMax(keys, m)
  {
    MaxExists(keys);
    var m :| IsMax(keys, m);
    m
  }

  /** SELECT ... ORDER BY sequence DESC LIMIT n. */
  ghost function Select(keys: set<nat>, n: nat): (rows: seq<nat>)
    ensures forall i :: 0 <= i < |rows| ==> rows[i] in keys
    decreases n
  {
    if n == 0 || keys == {} then [] else [MaxOf(keys)] + Select(keys - {MaxOf(keys)}, n - 1)
  }

  /** The ring after the selected rows, newest first, are stored oldest first. */
  function Fill(ring: seq<Slot>, t: Table, rows: seq<nat>): (r: seq<Slot>)
    requires |ring| == SLOTS && forall i :: 0 <= i < |rows| ==> rows[i] in t
    ensures |r| == SLOTS
    decreases rows
  {
    if rows == [] then ring else Fill(ring, t, rows[1..])[rows[0] % SLOTS := Slot(rows[0] + 1, t[rows[0]])]
  }

  function EmptyRing(): (r: seq<Slot>)
    ensures |r| == SLOTS && forall i :: 0 <= i < SLOTS ==> r[i] == EMPTY_SLOT
  {
    seq(SLOTS, i => EMPTY_SLOT)
  }

  /** The state after Initialize on a table, in a fresh process. */
  ghost function Recover(t: Table): Repo {
    var next := if t == map[] then 0 else MaxOf(t.Keys) + 1;
    Repo(next, Fill(EmptyRing(), t, Select(t.Keys, SLOTS)), map[], [], [], map[], t, Idle, false, false, next, t.Keys)
  }

  // What the list shows of a row: nickname and content.
  type Comment = (string, string)

  function Shown(row: Row): Comment {
    (row.nickname, row.content)
  }

  /** GetLatestComments from sequence number i on. */
  function LatestFrom(ring: seq<Slot>, i: nat, next: nat): seq<Comment>
    requires |ring| == SLOTS
    decreases next - i
  {
    if i >= next then []
    else
      var slot := ring[i % SLOTS];
      (if slot.sequence == i + 1 then [Shown(slot.row)] else []) + LatestFrom(ring, i + 1, next)
  }

  function WindowStart(next: nat): nat {
    if next > SLOTS then next - SLOTS else 0
  }

  function Latest(s: Repo): seq<Comment>
    requires |s.ring| == SLOTS
  {
    LatestFrom(s.ring, WindowStart(s.next), s.next)
  }
}

module CommentTheorems {
  import opened Prelude
  import opened CommentSpec

  /** The table once every task in flight and in the queue is applied. */
  function Settled(s: Repo): Table {
    ApplyAll(ApplyAll(if s.worker.Batch? then s.txn else s.table, s.local), s.queue)
  }

  lemma {:induction false} ApplySnoc(t: Table, tasks: seq<Task>, x: Task)
    ensures ApplyAll(t, tasks + [x]) == Apply(ApplyAll(t, tasks), x)
    decreases tasks
  {
    if tasks == [] {
      assert tasks + [x] == [x];
      assert [x][1..] == [];
    } else {
      assert (tasks + [x])[1..] == tasks[1..] + [x];
      ApplySnoc(Apply(t, tasks[0]), tasks[1..], x);
    }
  }

  /** A slot agrees with the settled table. */
  ghost predicate SlotOk(s: Repo, t: Table, i: nat)
    requires i < |s.ring|
  {
    var slot := s.ring[i];
    slot.sequence > 0 ==>
      && (slot.sequence - 1) % SLOTS == i && slot.sequence - 1 < s.next && slot.sequence - 1 !in s.pushing
      && slot.sequence - 1 in t && t[slot.sequence - 1] == slot.row
  }

  /** What the settled table holds: what was there before, and every comment whose slot was written. */
  ghost predicate KeysOk(s: Repo, t: Table) {
    forall q :: q in t <==> q in s.old_ || (s.first <= q < s.next && q !in s.pushing)
  }

  ghost predicate Agrees(s: Repo, t: Table) {
    |s.ring| == SLOTS && KeysOk(s, t) && forall i :: 0 <= i < SLOTS ==> SlotOk(s, t, i)
  }

  /** Where this session started: one past the largest stored sequence number. */
  ghost predicate Origin(first: nat, old_: set<nat>) {
    && (forall q :: q in old_ ==> q < first)
    && (old_ != {} ==> first > 0 && IsMax(old_, first - 1)) && (old_ == {} ==> first == 0)
  }

  ghost predicate Control(s: Repo) {
    && |s.ring| == SLOTS && s.first <= s.next
    && (forall q :: q in s.pushing ==> s.first <= q < s.next)
    && (s.worker.Idle? || s.worker.Exited? ==> s.local == [])
    && (s.worker == Batch(false) ==> s.failed)
  }

  ghost predicate Inv(s: Repo) {
    Origin(s.first, s.old_) && Control(s) && (!s.failed ==> Agrees(s, Settled(s)))
  }

  lemma WriteAgrees(s: Repo, t: Table, q: nat)
    requires Inv(s) && Agrees(s, t) && q in s.pushing
    ensures Agrees(WriteSlot(s, q), Apply(t, Insert(q, s.pushing[q])))
  {
    var e, u := WriteSlot(s, q), Apply(t, Insert(q, s.pushing[q]));
    forall i | 0 <= i < SLOTS ensures SlotOk(e, u, i) { assert SlotOk(s, t, i); }
  }

  lemma EraseAgrees(s: Repo, t: Table, q: nat)
    requires Agrees(s, t) && s.ring[q % SLOTS].sequence == q + 1
    ensures Agrees(EraseComment(s, q), Apply(t, Update(q, ERASED_NICK, ERASED_CONTENT)))
  {
    assert SlotOk(s, t, q % SLOTS);
    var e, u := EraseComment(s, q), Apply(t, Update(q, ERASED_NICK, ERASED_CONTENT));
    forall i | 0 <= i < SLOTS ensures SlotOk(e, u, i) {
      assert SlotOk(s, t, i);
    }
  }

  lemma TicketAgrees(s: Repo, t: Table, row: Row)
    requires Inv(s) && Agrees(s, t)
    ensures Agrees(TakeTicket(s, row), t)
  {
    var e := TakeTicket(s, row);
    forall i | 0 <= i < SLOTS ensures SlotOk(e, t, i) { assert SlotOk(s, t, i); }
  }

  lemma SameAgrees(s: Repo, e: Repo, t: Table)
    requires Agrees(s, t) && e.ring == s.ring && e.pushing == s.pushing
    requires e.next == s.next && e.first == s.first && e.old_ == s.old_
    ensures Agrees(e, t)
  {
    forall i | 0 <= i < SLOTS ensures SlotOk(e, t, i) { assert SlotOk(s, t, i); }
  }

  /** A step that touches neither the slots nor the tickets, and settles to the same table. */
  lemma WorkerAgrees(s: Repo, step: Step)
    requires Inv(s) && Enabled(s, step) && !step.Ticket? && !step.Write? && !step.Erase?
    requires !Next(s, step).failed
    ensures Agrees(Next(s, step), Settled(Next(s, step)))
  {
    WorkerSettles(s, step);
    SameAgrees(s, Next(s, step), Settled(s));
  }

  /** What the worker has done and what it still has to do settle to the same table. */
  lemma WorkerSettles(s: Repo, step: Step)
    requires Control(s) && Enabled(s, step) && !step.Ticket? && !step.Write? && !step.Erase?
    requires !Next(s, step).failed
    ensures Settled(Next(s, step)) == Settled(s)
  {
  }

  lemma ProducerAgrees(s: Repo, step: Step)
    requires Inv(s) && Enabled(s, step) && !s.failed && (step.Ticket? || step.Write? || step.Erase?)
    ensures Agrees(Next(s, step), Settled(Next(s, step)))
  {
    var before := ApplyAll(if s.worker.Batch? then s.txn else s.table, s.local);
    match step
    case Ticket(row) => TicketAgrees(s, Settled(s), row);
    case Write(q) =>
      WriteAgrees(s, Settled(s), q);
      ApplySnoc(before, s.queue, Insert(q, s.pushing[q]));
    case Erase(q) =>
      if Next(s, step) != s {
        EraseAgrees(s, Settled(s), q);
        ApplySnoc(before, s.queue, Update(q, ERASED_NICK, ERASED_CONTENT));
      }
  }

  lemma TicketControl(s: Repo, row: Row)
    requires Control(s)
    ensures Control(TakeTicket(s, row))
  {
  }

  lemma WriteControl(s: Repo, q: nat)
    requires Control(s) && q in s.pushing
    ensures Control(WriteSlot(s, q))
  {
  }

  lemma EraseControl(s: Repo, q: nat)
    requires Control(s)
    ensures Control(EraseComment(s, q))
  {
  }

  lemma ControlKeeps(s: Repo, step: Step)
    requires Control(s) && Enabled(s, step)
    ensures Control(Next(s, step))
  {
    match step
    case Ticket(row) => TicketControl(s, row);
    case Write(q) => WriteControl(s, q);
    case Erase(q) => EraseControl(s, q);
    case _ =>
  }

  lemma OriginFixed(s: Repo, step: Step)
    requires Enabled(s, step)
    ensures Next(s, step).first == s.first && Next(s, step).old_ == s.old_
    ensures s.failed ==> Next(s, step).failed
  {
  }

  lemma StepKeeps(s: Repo, step: Step)
    requires Inv(s) && Enabled(s, step)
    ensures Inv(Next(s, step))
  {
    ControlKeeps(s, step);
    OriginFixed(s, step);
    if !Next(s, step).failed {
      if step.Ticket? || step.Write? || step.Erase? {
        ProducerAgrees(s, step);
      } else {
        WorkerAgrees(s, step);
      }
    }
  }

  lemma {:induction false} RunKeeps(s: Repo, steps: seq<Step>)
    requires Inv(s) && IsRun(s, steps)
    ensures Inv(After(s, steps))
    decreases steps
  {
    if steps != [] {
      StepKeeps(s, steps[0]);
      RunKeeps(Next(s, steps[0]), steps[1..]);
    }
  }

  // ---------- Starting and recovering ----------

  /** Where a window row went: selected, or pushed out by n larger ones. */
  lemma {:induction false} SelectMisses(keys: set<nat>, n: nat, q: nat)
    requires q in keys && q !in Select(keys, n)
    ensures MaxOf(keys) >= q + n
    decreases n
  {
    if n > 0 {
      var m := MaxOf(keys);
      var rest := keys - {m};
      assert q != m;
      SelectMisses(rest, n - 1, q);
      assert MaxOf(rest) in rest;
    }
  }

  lemma {:induction false} SelectDescends(keys: set<nat>, n: nat)
    ensures forall i, j :: 0 <= i < j < |Select(keys, n)| ==> Select(keys, n)[i] > Select(keys, n)[j]
    decreases n
  {
    if n > 0 && keys != {} {
      SelectDescends(keys - {MaxOf(keys)}, n - 1);
    }
  }

  /** Filling stores, in each slot, the newest selected row that belongs there. */
  lemma {:induction false} FillStores(ring: seq<Slot>, t: Table, rows: seq<nat>, i: nat)
    requires |ring| == SLOTS && i < SLOTS && forall k :: 0 <= k < |rows| ==> rows[k] in t
    ensures var slot := Fill(ring, t, rows)[i];
      || (slot == ring[i] && forall k :: 0 <= k < |rows| ==> rows[k] % SLOTS != i)
      || (exists k :: 0 <= k < |rows| && rows[k] % SLOTS == i && slot == Slot(rows[k] + 1, t[rows[k]])
                      && forall j :: 0 <= j < k ==> rows[j] % SLOTS != i)
    decreases rows
  {
    if rows != [] {
      FillStores(ring, t, rows[1..], i);
      var slot := Fill(ring, t, rows)[i];
      if rows[0] % SLOTS == i {
        assert slot == Slot(rows[0] + 1, t[rows[0]]);
      } else if k :| 0 <= k < |rows| - 1 && rows[1..][k] % SLOTS == i && slot == Slot(rows[1..][k] + 1, t[rows[1..][k]])
                     && forall j :: 0 <= j < k ==> rows[1..][j] % SLOTS != i {
        assert rows[k + 1] == rows[1..][k];
        assert forall j :: 0 < j < k + 1 ==> rows[j] == rows[1..][j - 1];
      } else {
        assert forall k :: 0 < k < |rows| ==> rows[k] == rows[1..][k - 1];
      }
    }
  }

  lemma ModWindow(a: nat, b: nat)
    requires a % SLOTS == b % SLOTS && a <= b < a + SLOTS
    ensures a == b
  {
  }

  /** A stored row of the window is among the selected ones. */
  lemma WindowIsSelected(keys: set<nat>, q: nat)
    requires q in keys && WindowStart(MaxOf(keys) + 1) <= q
    ensures q in Select(keys, SLOTS)
  {
    if q !in Select(keys, SLOTS) { SelectMisses(keys, SLOTS, q); }
  }

  /** Of the selected rows that belong into one slot, a row of the window is the first. */
  lemma FirstOfItsSlot(t: Table, keys: set<nat>, q: nat, k: nat)
    requires q in keys && WindowStart(MaxOf(keys) + 1) <= q
    requires StoredFirst(t, Select(keys, SLOTS), q, k)
    ensures Select(keys, SLOTS)[k] == q
  {
    var rows := Select(keys, SLOTS);
    WindowIsSelected(keys, q);
    SelectDescends(keys, SLOTS);
    var n :| 0 <= n < |rows| && rows[n] == q;
    assert k <= n;
    assert rows[k] in keys;
    ModWindow(q, rows[k]);
  }

  /** Row k is the first of the selected ones that belongs into the slot of q. */
  predicate StoredFirst(t: Table, rows: seq<nat>, q: nat, k: nat) {
    k < |rows| && rows[k] in t && rows[k] % SLOTS == q % SLOTS && forall j :: 0 <= j < k ==> rows[j] % SLOTS != q % SLOTS
  }

  lemma FilledSlot(t: Table, rows: seq<nat>, q: nat)
    requires forall i :: 0 <= i < |rows| ==> rows[i] in t
    ensures var slot := Fill(EmptyRing(), t, rows)[q % SLOTS];
      && (slot.sequence > 0 ==> slot.sequence - 1 in t)
      && (q in rows ==> exists k: nat :: StoredFirst(t, rows, q, k) && slot == Slot(rows[k] + 1, t[rows[k]]))
  {
    FillStores(EmptyRing(), t, rows, q % SLOTS);
    var slot := Fill(EmptyRing(), t, rows)[q % SLOTS];
    if q in rows {
      var n :| 0 <= n < |rows| && rows[n] == q;
      assert rows[n] % SLOTS == q % SLOTS;
      var k :| 0 <= k < |rows| && rows[k] % SLOTS == q % SLOTS && slot == Slot(rows[k] + 1, t[rows[k]])
               && forall j :: 0 <= j < k ==> rows[j] % SLOTS != q % SLOTS;
      assert StoredFirst(t, rows, q, k);
    }
  }

  /** After recovery a slot of the window holds its own row exactly when the table has it. */
  lemma RecoveredSlot(t: Table, q: nat)
    requires t != map[] && WindowStart(MaxOf(t.Keys) + 1) <= q <= MaxOf(t.Keys)
    ensures var slot := Recover(t).ring[q % SLOTS];
      && (slot.sequence == q + 1 <==> q in t)
      && (q in t ==> slot.row == t[q])
  {
    var rows := Select(t.Keys, SLOTS);
    FilledSlot(t, rows, q);
    if q in t {
      WindowIsSelected(t.Keys, q);
      var k: nat :| StoredFirst(t, rows, q, k) && Fill(EmptyRing(), t, rows)[q % SLOTS] == Slot(rows[k] + 1, t[rows[k]]);
      FirstOfItsSlot(t, t.Keys, q, k);
    }
  }

  lemma StoredSlotOk(s: Repo, t: Table, i: nat, q: nat)
    requires q in t && q % SLOTS == i && i < |s.ring| && s.ring[i] == Slot(q + 1, t[q])
    requires q < s.next && s.pushing == map[]
    ensures SlotOk(s, t, i)
  {
  }

  lemma RecoveredSlotOk(t: Table, rows: seq<nat>, s: Repo, i: nat)
    requires i < SLOTS && rows == Select(t.Keys, SLOTS) && s == Recover(t)
    ensures SlotOk(s, t, i)
  {
    var slot := s.ring[i];
    FillStores(EmptyRing(), t, rows, i);
    if slot != EMPTY_SLOT {
      var k :| 0 <= k < |rows| && rows[k] % SLOTS == i && slot == Slot(rows[k] + 1, t[rows[k]]);
      StoredSlotOk(s, t, i, rows[k]);
    }
  }

  lemma RecoverHolds(t: Table)
    ensures Inv(Recover(t))
  {
    assert Settled(Recover(t)) == t;
    forall i | 0 <= i < SLOTS ensures SlotOk(Recover(t), t, i) {
      RecoveredSlotOk(t, Select(t.Keys, SLOTS), Recover(t), i);
    }
  }

  /** Write-behind agreement: unless SQLite refused something, applying what is in flight and queued to the table
      gives, for every occupied slot, exactly the row of that slot; pushes may have overtaken each other. */
  lemma SlotsAgreeWithTable(t: Table, steps: seq<Step>, i: nat)
    requires IsRun(Recover(t), steps) && !After(Recover(t), steps).failed && i < SLOTS
    ensures var s := After(Recover(t), steps);
      && |s.ring| == SLOTS
      && (s.ring[i].sequence > 0 ==>
            s.ring[i].sequence - 1 in Settled(s) && Settled(s)[s.ring[i].sequence - 1] == s.ring[i].row)
  {
    RecoverHolds(t);
    RunKeeps(Recover(t), steps);
    var s := After(Recover(t), steps);
    assert SlotOk(s, Settled(s), i);
  }

  // ---------- The latest comments across a restart ----------

  ghost predicate Subsequence(a: seq<Comment>, b: seq<Comment>)
    decreases b
  {
    a == [] || (b != [] && ((a[0] == b[0] && Subsequence(a[1..], b[1..])) || Subsequence(a, b[1..])))
  }

  lemma SubsequencePush(a: seq<Comment>, b: seq<Comment>, x: Comment)
    requires Subsequence(a, b)
    ensures Subsequence([x] + a, [x] + b) && Subsequence(a, [x] + b)
  {
    assert ([x] + a)[1..] == a && ([x] + b)[1..] == b;
  }

  predicate Holds(ring: seq<Slot>, q: nat)
    requires |ring| == SLOTS
  {
    ring[q % SLOTS].sequence == q + 1
  }

  /** Reading two rings of which one has all that the other has. */
  lemma {:induction false} CompareLatest(a: seq<Slot>, b: seq<Slot>, i: nat, next: nat)
    requires |a| == SLOTS && |b| == SLOTS
    requires forall q: nat :: i <= q < next && Holds(a, q) ==> Holds(b, q) && b[q % SLOTS].row == a[q % SLOTS].row
    ensures Subsequence(LatestFrom(a, i, next), LatestFrom(b, i, next))
    ensures |LatestFrom(a, i, next)| <= |LatestFrom(b, i, next)|
    ensures LatestFrom(a, i, next) == LatestFrom(b, i, next)
      <==> forall q: nat :: i <= q < next && Holds(b, q) ==> Holds(a, q)
    decreases next - i
  {
    if i < next {
      CompareLatest(a, b, i + 1, next);
      var x, y := LatestFrom(a, i + 1, next), LatestFrom(b, i + 1, next);
      var row := Shown(b[i % SLOTS].row);
      SubsequencePush(x, y, row);
      if Holds(a, i) {
        assert Holds(b, i) && Shown(a[i % SLOTS].row) == row;
        ConsInjective(row, x, y);
      } else {
        assert [] + x == x && [] + y == y;
        assert |[row] + y| > |x|;
      }
    }
  }

  /** A clean stop and a restart, compared slot by slot. Which runs lose a slot is the subject of CommentOvertaking. */
  lemma RestartBySlots(t: Table, steps: seq<Step>)
    requires IsRun(Recover(t), steps)
    requires var s := After(Recover(t), steps);
      s.worker.Exited? && s.queue == [] && s.pushing == map[] && !s.failed
    ensures var s := After(Recover(t), steps);
      var r := Recover(s.table);
      && |s.ring| == SLOTS && r.next == s.next
      && Subsequence(Latest(s), Latest(r))
      && (Latest(s) == Latest(r) <==>
            forall q: nat :: WindowStart(s.next) <= q < s.next && q in s.table ==> Holds(s.ring, q))
  {
    RecoverHolds(t);
    RunKeeps(Recover(t), steps);
    CleanStop(After(Recover(t), steps));
  }

  lemma CleanStopNext(s: Repo)
    requires Inv(s) && s.worker.Exited? && s.queue == [] && s.pushing == map[] && !s.failed
    ensures Settled(s) == s.table && Recover(s.table).next == s.next
  {
    assert Settled(s) == s.table;
    if s.next > s.first {
      assert s.next - 1 in s.table;
    } else if s.next > 0 {
      assert s.next - 1 in s.old_;
      assert s.next - 1 in s.table;
    }
    if s.table != map[] {
      assert MaxOf(s.table.Keys) in s.table;
    }
  }

  lemma CleanStop(s: Repo)
    requires Inv(s) && s.worker.Exited? && s.queue == [] && s.pushing == map[] && !s.failed
    ensures var r := Recover(s.table);
      && r.next == s.next
      && Subsequence(Latest(s), Latest(r))
      && (Latest(s) == Latest(r) <==>
            forall q: nat :: WindowStart(s.next) <= q < s.next && q in s.table ==> Holds(s.ring, q))
  {
    CleanStopNext(s);
    var r := Recover(s.table);
    var from := WindowStart(s.next);
    forall q: nat | from <= q < s.next ensures
      && (Holds(r.ring, q) <==> q in s.table)
      && (Holds(s.ring, q) ==> q in s.table && r.ring[q % SLOTS].row == s.ring[q % SLOTS].row)
    {
      assert s.table != map[];
      RecoveredSlot(s.table, q);
      assert SlotOk(s, s.table, q % SLOTS);
    }
    CompareLatest(s.ring, r.ring, from, s.next);
  }
}

/** CommentRepository as an object over an array of slots. SQLite answers are parameters. */
module CommentCode {
  import opened Prelude
  import Spec = CommentSpec

  class CommentRepository {
    const ring: array<Spec.Slot>
    var nextSequence: nat
    var queue: seq<Spec.Task>
    var stopRequested: bool
    ghost var pushing: map<nat, Spec.Row>
    ghost var local: seq<Spec.Task>
    // The database, and the transaction's view of it.
    var table: Spec.Table
    var txn: Spec.Table
    ghost var worker: Spec.Worker
    ghost var failed: bool
    ghost var first: nat
    ghost var old_: set<nat>

    ghost function View(): Spec.Repo
      reads this, ring
    {
      Spec.Repo(nextSequence, ring[..], pushing, queue, local, txn, table, worker, stopRequested, failed, first, old_)
    }

    predicate Valid() {
      ring.Length == Spec.SLOTS
    }

    /** Initialize: `rows` is what the SELECT returned, newest first. */
    constructor (t: Spec.Table, rows: seq<nat>)
      requires rows == Spec.Select(t.Keys, Spec.SLOTS)
      ensures Valid() && fresh(ring) && View() == Spec.Recover(t)
    {
      ring := new Spec.Slot[Spec.SLOTS](_ => Spec.EMPTY_SLOT);
      queue, stopRequested, pushing, local := [], false, map[], [];
      table, txn, worker, failed := t, map[], Spec.Idle, false;
      var next := 0;
      if rows != [] { next := rows[0] + 1; }
      nextSequence, first, old_ := next, next, t.Keys;
      new;
      assert ring[..] == Spec.EmptyRing();
      FillRing(t, rows);
    }

    /** Stores the selected rows, oldest first. */
    method FillRing(t: Spec.Table, rows: seq<nat>)
      requires Valid() && forall i :: 0 <= i < |rows| ==> rows[i] in t
      modifies ring
      ensures ring[..] == Spec.Fill(old(ring[..]), t, rows)
    {
      var i := |rows|;
      assert rows[i..] == [];
      while i > 0
        invariant 0 <= i <= |rows|
        invariant ring[..] == Spec.Fill(old(ring[..]), t, rows[i..])
      {
        i := i - 1;
        assert rows[i..][1..] == rows[i + 1..];
        ring[rows[i] % Spec.SLOTS] := Spec.Slot(rows[i] + 1, t[rows[i]]);
      }
      assert rows[0..] == rows;
    }

    /** The fetch_add of PushComment. */
    method TakeTicket(row: Spec.Row) returns (q: nat)
      requires Valid()
      modifies this
      ensures q == old(nextSequence) && View() == Spec.Next(old(View()), Spec.Ticket(row))
    {
      q := nextSequence;
      nextSequence := nextSequence + 1;
      pushing := pushing[q := row];
    }

    /** PushComment from its slot lock on. */
    method WriteSlot(q: nat, row: Spec.Row)
      requires Valid() && q in pushing && pushing[q] == row
      modifies this, ring
      ensures View() == Spec.Next(old(View()), Spec.Write(q))
    {
      ring[q % Spec.SLOTS] := Spec.Slot(q + 1, row);
      queue := queue + [Spec.Insert(q, row)];
      pushing := pushing - {q};
    }

    method EraseComment(q: nat) returns (found: bool, nick: string, ip: string)
      requires Valid()
      modifies this, ring
      ensures View() == Spec.Next(old(View()), Spec.Erase(q))
      ensures found <==> old(ring[q % Spec.SLOTS]).sequence == q + 1
      ensures found ==> nick == old(ring[q % Spec.SLOTS]).row.nickname && ip == old(ring[q % Spec.SLOTS]).row.ip
    {
      found, nick, ip := false, "", "";
      var slot := ring[q % Spec.SLOTS];
      if slot.sequence == q + 1 {
        found, nick, ip := true, slot.row.nickname, slot.row.ip;
        ring[q % Spec.SLOTS] :=
          slot.(row := slot.row.(nickname := Spec.ERASED_NICK, content := Spec.ERASED_CONTENT));
        queue := queue + [Spec.Update(q, Spec.ERASED_NICK, Spec.ERASED_CONTENT)];
      }
    }

    /** GetLatestComments, when no push comes between its slots. */
    method GetLatestComments() returns (comments: seq<Spec.Comment>)
      requires Valid()
      ensures comments == Spec.Latest(View())
    {
      var next := nextSequence;
      var i := if next > Spec.SLOTS then next - Spec.SLOTS else 0;
      comments := [];
      while i < next
        invariant i <= next
        invariant comments + Spec.LatestFrom(ring[..], i, next) == Spec.Latest(View())
      {
        ghost var rest := Spec.LatestFrom(ring[..], i + 1, next);
        var slot := ring[i % Spec.SLOTS];
        assert ring[..][i % Spec.SLOTS] == slot;
        Associate(comments, if slot.sequence == i + 1 then [Spec.Shown(slot.row)] else [], rest);
        assert comments + [] == comments;
        if slot.sequence == i + 1 {
          comments := comments + [(slot.row.nickname, slot.row.content)];
        }
        i := i + 1;
      }
    }

    method ExecuteTask(task: Spec.Task)
      modifies this`txn
      ensures txn == Spec.Apply(old(txn), task)
    {
      match task {
        case Insert(q, row) => txn := txn[q := row];
        case Update(q, nickname, content) =>
          if q in txn { txn := txn[q := txn[q].(nickname := nickname, content := content)]; }
      }
    }

    /** One round of DBWorkerLoop: swap the queue out, run it in one transaction, commit it or roll it back.
        beginOk, execOk and endOk are SQLite's answers; the batch counts only if all of them are yes. */
    method DrainQueue(beginOk: bool, execOk: seq<bool>, endOk: bool)
      requires Valid() && worker.Idle? && local == [] && queue != [] && |execOk| == |queue|
      modifies this
      ensures worker.Idle? && local == [] && queue == []
      ensures var ok := beginOk && (forall i :: 0 <= i < |execOk| ==> execOk[i]) && endOk;
        && table == (if ok then Spec.ApplyAll(old(table), old(queue)) else old(table))
        && failed == (old(failed) || !ok)
      ensures nextSequence == old(nextSequence) && pushing == old(pushing) && stopRequested == old(stopRequested)
    {
      var localQueue := queue;
      queue := [];
      if !beginOk {
        failed := true;
        return;
      }
      txn := table;
      var allOk, i := true, 0;
      while i < |localQueue|
        invariant 0 <= i <= |localQueue|
        invariant allOk <==> forall k :: 0 <= k < i ==> execOk[k]
        invariant allOk ==> Spec.ApplyAll(txn, localQueue[i..]) == Spec.ApplyAll(old(table), old(queue))
        invariant worker.Idle? && local == [] && queue == [] && failed == old(failed) && table == old(table)
        invariant nextSequence == old(nextSequence) && pushing == old(pushing) && stopRequested == old(stopRequested)
      {
        if execOk[i] {
          ExecuteTask(localQueue[i]);
        } else {
          allOk := false;
        }
        assert localQueue[i..][1..] == localQueue[i + 1..];
        i := i + 1;
      }
      if allOk && endOk {
        table := txn;
      } else {
        failed := true;
      }
    }
  }
}
