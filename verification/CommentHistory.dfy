/** What the latest list and the table hold, told by what was pushed and what was erased
    (app/repository/CommentRepository.cpp). */
module CommentHistory {
  import opened Prelude
  import opened CommentSpec
  import opened CommentTheorems
  import opened CommentOvertaking

  /** The rows of the pushes that took a ticket, in the order of their tickets. */
  function Tickets(steps: seq<Step>): seq<Row> {
    if steps == [] then []
    else
      var last := steps[|steps| - 1];
      Tickets(steps[..|steps| - 1]) + if last.Ticket? then [last.row] else []
  }

  /** One past the largest number in the table. */
  ghost function FirstTicket(t: Table): nat {
    if t == map[] then 0 else MaxOf(t.Keys) + 1
  }

  /** The row of comment q: as the table had it, or as it was pushed. */
  ghost function Given(t: Table, steps: seq<Step>, q: nat): Row {
    var first := FirstTicket(t);
    if q in t then t[q]
    else if first <= q < first + |Tickets(steps)| then Tickets(steps)[q - first]
    else Row("", "", "")
  }

  /** Some erasure of q came after the last push into its slot. */
  predicate ErasedSince(steps: seq<Step>, q: nat) {
    steps != [] &&
    var last := steps[|steps| - 1];
    last == Erase(q) || (!(last.Write? && SameSlot(last.q, q)) && ErasedSince(steps[..|steps| - 1], q))
  }

  /** The last push into its slot was that of q; without one, the table had q. */
  predicate Carries(t: Table, steps: seq<Step>, q: nat) {
    match LastWrite(steps, q % SLOTS)
    case Some(x) => x == q
    case None => q in t
  }

  /** How comment q reads. */
  ghost function Reads(t: Table, steps: seq<Step>, q: nat): Comment {
    if ErasedSince(steps, q) then (ERASED_NICK, ERASED_CONTENT)
    else (Given(t, steps, q).nickname, Given(t, steps, q).content)
  }

  /** The comments from i on whose slot is still theirs, in the order of their tickets. */
  ghost function ReadsFrom(t: Table, steps: seq<Step>, i: nat, next: nat): seq<Comment>
    decreases next - i
  {
    if i >= next then []
    else (if Carries(t, steps, i) then [Reads(t, steps, i)] else []) + ReadsFrom(t, steps, i + 1, next)
  }

  // ---------- Tickets ----------

  ghost predicate TicketsOk(s: Repo, first: nat, rows: seq<Row>) {
    && s.next == first + |rows|
    && forall q :: q in s.pushing ==> first <= q < s.next && s.pushing[q] == rows[q - first]
  }

  lemma StepTickets(s: Repo, step: Step, first: nat, rows: seq<Row>)
    requires Enabled(s, step) && TicketsOk(s, first, rows)
    ensures TicketsOk(Next(s, step), first, rows + if step.Ticket? then [step.row] else [])
  {
  }

  lemma {:induction false} RunTickets(t: Table, steps: seq<Step>)
    requires IsRun(Recover(t), steps)
    ensures TicketsOk(After(Recover(t), steps), FirstTicket(t), Tickets(steps))
    decreases |steps|
  {
    if steps != [] {
      var n := |steps| - 1;
      RunSnoc(Recover(t), steps);
      RunTickets(t, steps[..n]);
      StepTickets(After(Recover(t), steps[..n]), steps[n], FirstTicket(t), Tickets(steps[..n]));
    }
  }

  // ---------- One slot ----------

  /** The row as it was given, or with the two texts replaced. */
  function Kept(row: Row, erased: bool): Row {
    if erased then Row(ERASED_NICK, ERASED_CONTENT, row.ip) else row
  }

  ghost predicate SlotReads(s: Repo, q: nat, row: Row, erased: bool)
    requires |s.ring| == SLOTS
  {
    s.ring[q % SLOTS].sequence == q + 1 ==> s.ring[q % SLOTS].row == Kept(row, erased)
  }

  lemma WriteReads(s: Repo, x: nat, q: nat, row: Row, erased: bool)
    requires |s.ring| == SLOTS && x in s.pushing && SlotReads(s, q, row, erased) && (x == q ==> s.pushing[q] == row)
    ensures SlotReads(WriteSlot(s, x), q, row, !SameSlot(x, q) && erased)
  {
  }

  lemma EraseReads(s: Repo, x: nat, q: nat, row: Row, erased: bool)
    requires |s.ring| == SLOTS && SlotReads(s, q, row, erased)
    ensures SlotReads(EraseComment(s, x), q, row, x == q || erased)
  {
  }

  lemma StepReads(s: Repo, step: Step, q: nat, row: Row, erased: bool)
    requires Enabled(s, step) && SlotReads(s, q, row, erased)
    requires step == Write(q) ==> s.pushing[q] == row
    ensures SlotReads(Next(s, step), q, row,
                      step == Erase(q) || (!(step.Write? && SameSlot(step.q, q)) && erased))
  {
    match step
    case Write(x) => WriteReads(s, x, q, row, erased);
    case Erase(x) => EraseReads(s, x, q, row, erased);
    case _ =>
  }

  /** A comment's row is known before its push is over and does not change by later tickets. */
  lemma GivenStays(t: Table, steps: seq<Step>, q: nat)
    requires steps != [] && (q in t || q < FirstTicket(t) + |Tickets(steps[..|steps| - 1])|)
    ensures Given(t, steps, q) == Given(t, steps[..|steps| - 1], q)
  {
  }

  lemma RecoveredReads(t: Table, q: nat)
    ensures SlotReads(Recover(t), q, Given(t, [], q), false)
  {
    RecoverHolds(t);
    assert SlotOk(Recover(t), Settled(Recover(t)), q % SLOTS);
    assert Settled(Recover(t)) == t;
  }

  lemma LastStepReads(t: Table, steps: seq<Step>, front: seq<Step>, last: Step, s: Repo, u: Repo, q: nat)
    requires steps != [] && front == steps[..|steps| - 1] && last == steps[|steps| - 1]
    requires IsRun(Recover(t), front) && s == After(Recover(t), front) && Enabled(s, last) && u == Next(s, last)
    requires |u.ring| == SLOTS && (q in t || q < FirstTicket(t) + |Tickets(front)|)
    requires SlotReads(s, q, Given(t, front, q), ErasedSince(front, q))
    ensures SlotReads(u, q, Given(t, steps, q), ErasedSince(steps, q))
  {
    GivenStays(t, steps, q);
    if last == Write(q) { PushedRow(t, front, q); }
    StepReads(s, last, q, Given(t, front, q), ErasedSince(front, q));
  }

  lemma {:induction false} RunReads(t: Table, steps: seq<Step>, q: nat)
    requires IsRun(Recover(t), steps)
    requires q in t || q < FirstTicket(t) + |Tickets(steps)|
    ensures |After(Recover(t), steps).ring| == SLOTS
    ensures SlotReads(After(Recover(t), steps), q, Given(t, steps, q), ErasedSince(steps, q))
    decreases |steps|
  {
    if steps == [] {
      RecoveredReads(t, q);
    } else {
      var front := steps[..|steps| - 1];
      RunSnoc(Recover(t), steps);
      if q in t || q < FirstTicket(t) + |Tickets(front)| {
        RunReads(t, front, q);
        var s := After(Recover(t), front);
        LastStepReads(t, steps, front, steps[|steps| - 1], s, Next(s, steps[|steps| - 1]), q);
      } else {
        FreshTicketReads(t, steps, q);
      }
    }
  }

  lemma PushedRow(t: Table, steps: seq<Step>, q: nat)
    requires IsRun(Recover(t), steps) && q in After(Recover(t), steps).pushing
    ensures Given(t, steps, q) == After(Recover(t), steps).pushing[q]
  {
    RunTickets(t, steps);
  }

  /** No slot carries a number whose ticket is still to be taken. */
  ghost predicate SlotsBelow(s: Repo) {
    && |s.ring| == SLOTS && (forall q :: q in s.pushing ==> q < s.next)
    && forall i :: 0 <= i < SLOTS ==> s.ring[i].sequence <= s.next
  }

  lemma StepSlotsBelow(s: Repo, step: Step)
    requires SlotsBelow(s) && Enabled(s, step)
    ensures SlotsBelow(Next(s, step))
  {
  }

  lemma {:induction false} RunSlotsBelow(s: Repo, steps: seq<Step>)
    requires SlotsBelow(s) && IsRun(s, steps)
    ensures SlotsBelow(After(s, steps))
    decreases steps
  {
    if steps != [] {
      StepSlotsBelow(s, steps[0]);
      RunSlotsBelow(Next(s, steps[0]), steps[1..]);
    }
  }

  lemma RecoveredSlotsBelow(t: Table)
    ensures SlotsBelow(Recover(t))
  {
    RecoverHolds(t);
    assert Settled(Recover(t)) == t;
    forall i | 0 <= i < SLOTS ensures Recover(t).ring[i].sequence <= Recover(t).next {
      assert SlotOk(Recover(t), t, i);
    }
  }

  /** The step that takes the ticket of q leaves the slots alone, and none of them carries q yet. */
  lemma FreshTicketReads(t: Table, steps: seq<Step>, q: nat)
    requires IsRun(Recover(t), steps) && steps != []
    requires FirstTicket(t) + |Tickets(steps[..|steps| - 1])| <= q
    ensures |After(Recover(t), steps).ring| == SLOTS
    ensures q < FirstTicket(t) + |Tickets(steps)| ==> After(Recover(t), steps).ring[q % SLOTS].sequence != q + 1
  {
    var front := steps[..|steps| - 1];
    RunSnoc(Recover(t), steps);
    RunTickets(t, front);
    RecoveredSlotsBelow(t);
    RunSlotsBelow(Recover(t), front);
    RunSlotsBelow(Recover(t), steps);
  }

  // ---------- The list ----------

  /** A slot of the window carries its own number exactly when the last push into it was that comment's. */
  lemma HoldsIffCarries(t: Table, steps: seq<Step>, q: nat)
    requires IsRun(Recover(t), steps)
    requires WindowStart(After(Recover(t), steps).next) <= q < After(Recover(t), steps).next
    ensures |After(Recover(t), steps).ring| == SLOTS
    ensures Holds(After(Recover(t), steps).ring, q) <==> Carries(t, steps, q)
  {
    SlotSequence(Recover(t), steps, q % SLOTS);
    NextGrows(Recover(t), steps);
    if LastWrite(steps, q % SLOTS).None? { UntouchedHolds(t, q, After(Recover(t), steps).next); }
  }

  lemma UntouchedHolds(t: Table, q: nat, next: nat)
    requires Recover(t).next <= next && WindowStart(next) <= q
    ensures |Recover(t).ring| == SLOTS && (Recover(t).ring[q % SLOTS].sequence == q + 1 <==> q in t)
  {
    RecoveredSlotsBelow(t);
    if q < Recover(t).next { RecoveredSlot(t, q); }
  }

  /** What the list takes from one slot of the window. */
  ghost predicate Listed(t: Table, steps: seq<Step>, slot: Slot, q: nat) {
    && (slot.sequence == q + 1 <==> Carries(t, steps, q))
    && (Carries(t, steps, q) ==> Shown(slot.row) == Reads(t, steps, q))
  }

  lemma WindowSlotReads(t: Table, steps: seq<Step>, q: nat)
    requires IsRun(Recover(t), steps)
    requires WindowStart(After(Recover(t), steps).next) <= q < After(Recover(t), steps).next
    ensures var s := After(Recover(t), steps); |s.ring| == SLOTS && Listed(t, steps, s.ring[q % SLOTS], q)
  {
    HoldsIffCarries(t, steps, q);
    RunTickets(t, steps);
    RunReads(t, steps, q);
  }

  lemma {:induction false} LatestFromReads(t: Table, steps: seq<Step>, ring: seq<Slot>, i: nat, next: nat)
    requires |ring| == SLOTS && forall q: nat :: i <= q < next ==> Listed(t, steps, ring[q % SLOTS], q)
    ensures LatestFrom(ring, i, next) == ReadsFrom(t, steps, i, next)
    decreases next - i
  {
    if i < next {
      assert Listed(t, steps, ring[i % SLOTS], i);
      LatestFromReads(t, steps, ring, i + 1, next);
    }
  }

  // ---------- The table ----------

  /** The table changes only by a commit, and then to what the transaction made of it. */
  lemma TableChangesByCommit(s: Repo, step: Step)
    requires Enabled(s, step)
    ensures var t := Next(s, step);
      if step == EndTxn(true) && s.worker == Batch(true) then t.table == s.txn else t.table == s.table
  {
  }

  // ---------- Main results ----------

  /** After any run the latest list is, in the order of their tickets, those of the last 50 comments whose slot was last
      pushed into by themselves: nickname and content as pushed, or the two replacement texts if they were erased
      since. */
  lemma LatestReads(t: Table, steps: seq<Step>)
    requires IsRun(Recover(t), steps)
    ensures var s := After(Recover(t), steps); var next := FirstTicket(t) + |Tickets(steps)|;
      && |s.ring| == SLOTS && s.next == next
      && Latest(s) == ReadsFrom(t, steps, if next > 50 then next - 50 else 0, next)
  {
    RunTickets(t, steps);
    RecoveredSlotsBelow(t);
    RunSlotsBelow(Recover(t), steps);
    var s := After(Recover(t), steps);
    forall q: nat | WindowStart(s.next) <= q < s.next ensures Listed(t, steps, s.ring[q % SLOTS], q) {
      WindowSlotReads(t, steps, q);
    }
    LatestFromReads(t, steps, s.ring, WindowStart(s.next), s.next);
  }
}
