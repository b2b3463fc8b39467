/** The timers of an EventLoop (src/net/EventLoop.cpp). Times are whole nanoseconds of the steady clock. */
module TimerSpec {
  import opened Prelude

  // period is the converted interval_sec of a repeating timer, None for a one-shot one.
  datatype Entry = Entry(when_: int, id: nat, period: Option<nat>)

  // One call of a timer's callback: whose, its deadline, the time of the call, and the clock reading of its round.
  datatype Firing = Firing(id: nat, deadline: int, at: int, round: int)

  /** timers is the multimap in key order. While HandleTimerfd runs (calling), batch is its snapshot, expired
      the part still to be called, current the timer whose callback runs, now its reading of the clock and
      logStart the number of calls before it. alarm is the absolute expiry of the timerfd, kept until it is read. */
  datatype Timers = Timers(
    timers: seq<Entry>, active: map<nat, int>, calling: bool, canceling: set<nat>,
    batch: seq<Entry>, expired: seq<Entry>, current: Option<Entry>, now: int, logStart: nat,
    clock: int, alarm: Option<int>, lastReset: int, used: set<nat>, log: seq<Firing>)

  const START := Timers([], map[], false, {}, [], [], None, 0, 0, 0, None, 0, {}, [])

  // One microsecond: it_value of zero would stop the timerfd.
  const LEAST_DELAY := 1000

  function ResetTimerfd(s: Timers, earliest: int): Timers {
    s.(alarm := Some(s.clock + Max(earliest - s.clock, LEAST_DELAY)), lastReset := s.clock)
  }

  /** multimap::emplace: behind the entries of the same key. */
  function Insert(ts: seq<Entry>, e: Entry): seq<Entry> {
    if ts == [] || e.when_ < ts[0].when_ then [e] + ts else [ts[0]] + Insert(ts[1..], e)
  }

  function AddTimer(s: Timers, id: nat, when_: int, period: Option<nat>): Timers {
    var first := s.timers == [] || when_ < s.timers[0].when_;
    var t := s.(timers := Insert(s.timers, Entry(when_, id, period)), active := s.active[id := when_],
                used := s.used + {id});
    if first then ResetTimerfd(t, when_) else t
  }

  /** The search of CancelTimerInLoop through the entries of one key. */
  function RemoveEntry(ts: seq<Entry>, when_: int, id: nat): seq<Entry> {
    if ts == [] then []
    else if ts[0].when_ == when_ && ts[0].id == id then ts[1..]
    else [ts[0]] + RemoveEntry(ts[1..], when_, id)
  }

  function CancelTimer(s: Timers, id: nat): Timers {
    if id in s.active then
      var when_ := s.active[id];
      var t := s.(timers := RemoveEntry(s.timers, when_, id), active := s.active - {id});
      if t.timers != [] && when_ <= t.timers[0].when_ then ResetTimerfd(t, t.timers[0].when_) else t
    else if s.calling then s.(canceling := s.canceling + {id})
    else s
  }

  /** How many entries are due. */
  function Due(ts: seq<Entry>, now: int): (k: nat)
    ensures k <= |ts|
    ensures forall i :: 0 <= i < k ==> ts[i].when_ <= now
    ensures k < |ts| ==> ts[k].when_ > now
  {
    if ts == [] || ts[0].when_ > now then 0 else 1 + Due(ts[1..], now)
  }

  function Ids(ts: seq<Entry>): set<nat> {
    set i | 0 <= i < |ts| :: ts[i].id
  }

  /** HandleTimerfd up to its first callback: read the timerfd, take the snapshot. */
  function BeginRound(s: Timers): Timers {
    var k := Due(s.timers, s.clock);
    s.(batch := s.timers[..k], expired := s.timers[..k], timers := s.timers[k..],
       active := s.active - Ids(s.timers[..k]), calling := true, canceling := {},
       now := s.clock, logStart := |s.log|,
       alarm := if s.alarm.Some? && s.alarm.value <= s.clock then None else s.alarm)
  }

  function CallNext(s: Timers): Timers
    requires s.expired != []
  {
    var e := s.expired[0];
    s.(current := Some(e), expired := s.expired[1..], log := s.log + [Firing(e.id, e.when_, s.clock, s.now)])
  }

  /** The callback returned: a repeating timer that was not cancelled is scheduled again. */
  function FinishCall(s: Timers): Timers
    requires s.current.Some?
  {
    var e := s.current.value;
    var t := s.(current := None);
    if e.period.Some? && e.id !in s.canceling then
      var next := s.now + e.period.value;
      t.(timers := Insert(t.timers, e.(when_ := next)), active := t.active[e.id := next])
    else t
  }

  function EndRound(s: Timers): Timers {
    var t := s.(calling := false);
    if t.timers != [] then ResetTimerfd(t, t.timers[0].when_) else t
  }

  // ---------- Steps: callbacks add and cancel too ----------

  datatype Step =
    | Tick(time: int)
    | Add(id: nat, when_: int, period: Option<nat>)
    | Cancel(id: nat)
    | Begin
    | Call
    | Finish
    | End

  // Ids come from an atomic counter, so no id is added twice. Adds and cancels run on the loop
  // thread: between rounds, or inside a callback.
  predicate Enabled(s: Timers, step: Step) {
    match step
    case Tick(time) => s.clock <= time
    case Add(id, _, _) => id !in s.used && (s.calling ==> s.current.Some?)
    case Cancel(_) => s.calling ==> s.current.Some?
    case Begin => !s.calling
    case Call => s.calling && s.current.None? && s.expired != []
    case Finish => s.calling && s.current.Some?
    case End => s.calling && s.current.None? && s.expired == []
  }

  function Next(s: Timers, step: Step): Timers
    requires Enabled(s, step)
  {
    match step
    case Tick(time) => s.(clock := time)
    case Add(id, when_, period) => AddTimer(s, id, when_, period)
    case Cancel(id) => CancelTimer(s, id)
    case Begin => BeginRound(s)
    case Call => CallNext(s)
    case Finish => FinishCall(s)
    case End => EndRound(s)
  }

  predicate IsRun(s: Timers, steps: seq<Step>)
    decreases steps
  {
    steps == [] || (Enabled(s, steps[0]) && IsRun(Next(s, steps[0]), steps[1..]))
  }

  function After(s: Timers, steps: seq<Step>): Timers
    requires IsRun(s, steps)
    decreases steps
  {
    if steps == [] then s else After(Next(s, steps[0]), steps[1..])
  }

  lemma {:induction false} Append(s: Timers, a: seq<Step>, b: seq<Step>)
    requires IsRun(s, a) && IsRun(After(s, a), b)
    ensures IsRun(s, a + b) && After(s, a + b) == After(After(s, a), b)
    decreases a
  {
    if a == [] {
      assert a + b == b;
    } else {
      assert (a + b)[1..] == a[1..] + b;
      Append(Next(s, a[0]), a[1..], b);
    }
  }

  lemma Extend(s: Timers, steps: seq<Step>, step: Step)
    requires IsRun(s, steps) && Enabled(After(s, steps), step)
    ensures IsRun(s, steps + [step]) && After(s, steps + [step]) == Next(After(s, steps), step)
  {
    var t := After(s, steps);
    var one := [step];
    assert one[0] == step && one[1..] == [];
    assert IsRun(Next(t, one[0]), one[1..]);
    assert IsRun(t, one);
    assert After(t, one) == After(Next(t, one[0]), one[1..]);
    Append(s, steps, one);
  }
}

/** What the timer queue keeps over every run. */
module TimerTheorems {
  import opened Prelude
  import opened TimerSpec

  ghost predicate Sorted(ts: seq<Entry>) {
    forall i, j :: 0 <= i < j < |ts| ==> ts[i].when_ <= ts[j].when_
  }

  ghost predicate Distinct(ts: seq<Entry>) {
    forall i, j :: 0 <= i < j < |ts| ==> ts[i].id != ts[j].id
  }

  /** active_ maps exactly the ids in timers_ to their keys. */
  ghost predicate Agree(ts: seq<Entry>, active: map<nat, int>) {
    && active.Keys == Ids(ts)
    && forall i :: 0 <= i < |ts| ==> active[ts[i].id] == ts[i].when_
  }

  ghost predicate Scheduled(s: Timers) {
    Sorted(s.timers) && Distinct(s.timers) && Agree(s.timers, s.active) && s.active.Keys <= s.used
  }

  /** The round in progress: what was called is the beginning of the snapshot, in its order. */
  ghost predicate History(s: Timers) {
    && Sorted(s.batch) && Distinct(s.batch) && Ids(s.batch) <= s.used
    && (forall i :: 0 <= i < |s.batch| ==> s.batch[i].when_ <= s.now)
    && |s.expired| <= |s.batch| && s.expired == s.batch[|s.batch| - |s.expired|..]
    && |s.log| == s.logStart + |s.batch| - |s.expired|
    && (forall i :: s.logStart <= i < |s.log| ==>
          s.log[i].id == s.batch[i - s.logStart].id && s.log[i].deadline == s.batch[i - s.logStart].when_)
    && (s.current.Some? ==> |s.expired| < |s.batch| && s.current.value == s.batch[|s.batch| - |s.expired| - 1])
    && s.now <= s.clock
  }

  /** What is running or still to be called is not in the index. */
  ghost predicate Unscheduled(s: Timers) {
    && (s.current.Some? ==> s.current.value.id !in s.active)
    && (forall i :: 0 <= i < |s.expired| ==> s.expired[i].id !in s.active)
  }

  ghost predicate Round(s: Timers) {
    History(s) && Unscheduled(s)
  }

  ghost predicate Inv(s: Timers) {
    && Scheduled(s)
    && (s.calling ==> Round(s))
    && (!s.calling ==> s.current.None? && s.expired == [])
  }

  // ---------- The ordered table ----------

  lemma {:induction false} InsertSplits(ts: seq<Entry>, e: Entry) returns (k: nat)
    requires Sorted(ts)
    ensures k <= |ts| && Insert(ts, e) == ts[..k] + [e] + ts[k..]
    ensures forall i :: 0 <= i < k ==> ts[i].when_ <= e.when_
    ensures forall i :: k <= i < |ts| ==> e.when_ < ts[i].when_
  {
    if ts == [] || e.when_ < ts[0].when_ {
      k := 0;
    } else {
      var j := InsertSplits(ts[1..], e);
      k := j + 1;
      assert ts[..k] == [ts[0]] + ts[1..][..j] && ts[k..] == ts[1..][j..];
      forall i | k <= i < |ts| ensures e.when_ < ts[i].when_ { assert ts[i] == ts[1..][i - 1]; }
    }
  }

  lemma InsertOrder(ts: seq<Entry>, e: Entry)
    requires Sorted(ts)
    ensures var us := Insert(ts, e);
      && Sorted(us)
      && us[0].when_ == (if ts == [] || e.when_ < ts[0].when_ then e.when_ else ts[0].when_)
  {
    var k := InsertSplits(ts, e);
  }

  lemma InsertIds(ts: seq<Entry>, e: Entry)
    requires Sorted(ts)
    ensures Ids(Insert(ts, e)) == Ids(ts) + {e.id}
  {
    var k := InsertSplits(ts, e);
    var us := Insert(ts, e);
    forall i | 0 <= i < |ts| ensures ts[i].id in Ids(us) {
      assert us[if i < k then i else i + 1] == ts[i];
    }
    assert us[k] == e;
  }

  lemma InsertKeepsDistinct(ts: seq<Entry>, e: Entry)
    requires Sorted(ts) && Distinct(ts) && e.id !in Ids(ts)
    ensures Distinct(Insert(ts, e))
  {
    var k := InsertSplits(ts, e);
    JoinIsDistinct(ts, e, k);
  }

  lemma JoinIsDistinct(ts: seq<Entry>, e: Entry, k: nat)
    requires Distinct(ts) && e.id !in Ids(ts) && k <= |ts|
    ensures Distinct(ts[..k] + [e] + ts[k..])
  {
    var us := ts[..k] + [e] + ts[k..];
    forall i | 0 <= i < |ts| ensures ts[i].id != e.id { assert ts[i].id in Ids(ts); }
    forall i | 0 <= i < |us| ensures us[i] == if i < k then ts[i] else if i == k then e else ts[i - 1] { }
  }

  lemma KeyOf(ts: seq<Entry>, active: map<nat, int>, e: Entry, i: nat)
    requires Agree(ts, active) && e.id !in Ids(ts) && i < |ts|
    ensures ts[i].id in active && active[e.id := e.when_][ts[i].id] == ts[i].when_
  {
    assert ts[i].id in Ids(ts);
  }

  lemma InsertKeepsAgreement(ts: seq<Entry>, active: map<nat, int>, e: Entry)
    requires Sorted(ts) && Agree(ts, active) && e.id !in Ids(ts)
    ensures Agree(Insert(ts, e), active[e.id := e.when_])
  {
    InsertIds(ts, e);
    var k := InsertSplits(ts, e);
    var us, next := Insert(ts, e), active[e.id := e.when_];
    forall i | 0 <= i < |us| ensures next[us[i].id] == us[i].when_ {
      if i < k {
        KeyOf(ts, active, e, i);
      } else if k < i {
        KeyOf(ts, active, e, i - 1);
      }
    }
  }

  lemma InsertKeeps(ts: seq<Entry>, active: map<nat, int>, e: Entry)
    requires Sorted(ts) && Distinct(ts) && Agree(ts, active) && e.id !in active
    ensures var us := Insert(ts, e); Distinct(us) && Agree(us, active[e.id := e.when_])
  {
    InsertKeepsDistinct(ts, e);
    InsertKeepsAgreement(ts, active, e);
  }

  lemma {:induction false} RemoveSplits(ts: seq<Entry>, when_: int, id: nat, k: nat)
    requires Distinct(ts) && k < |ts| && ts[k].id == id && ts[k].when_ == when_
    ensures RemoveEntry(ts, when_, id) == ts[..k] + ts[k + 1..]
  {
    if k == 0 {
      assert ts[..0] + ts[1..] == ts[1..];
    } else {
      assert ts[0].id != id;
      RemoveSplits(ts[1..], when_, id, k - 1);
      TakeTail(ts, k);
      TakeTail(ts, k + 1);
      Associate([ts[0]], ts[1..][..k - 1], ts[k + 1..]);
    }
  }

  ghost function IndexOf(ts: seq<Entry>, id: nat): (k: nat)
    requires id in Ids(ts)
    ensures k < |ts| && ts[k].id == id
  {
    var k :| 0 <= k < |ts| && ts[k].id == id;
    k
  }

  lemma RemoveOrder(ts: seq<Entry>, when_: int, id: nat)
    requires Sorted(ts) && Distinct(ts) && id in Ids(ts) && ts[IndexOf(ts, id)].when_ == when_
    ensures var us := RemoveEntry(ts, when_, id);
      && Sorted(us) && Distinct(us)
      && (us != [] ==> ts[0].when_ <= us[0].when_)
      && (us != [] && us[0].when_ < when_ ==> us[0] == ts[0])
  {
    RemoveSplits(ts, when_, id, IndexOf(ts, id));
    WithoutKeepsOrder(ts, IndexOf(ts, id), RemoveEntry(ts, when_, id));
  }

  lemma WithoutKeepsOrder(ts: seq<Entry>, k: nat, us: seq<Entry>)
    requires Sorted(ts) && Distinct(ts) && k < |ts| && us == ts[..k] + ts[k + 1..]
    ensures Sorted(us) && Distinct(us)
    ensures us != [] ==> us[0] == if k == 0 then ts[1] else ts[0]
  {
    forall i | 0 <= i < |us| ensures us[i] == ts[if i < k then i else i + 1] { }
  }

  lemma RemoveIds(ts: seq<Entry>, when_: int, id: nat)
    requires Distinct(ts) && id in Ids(ts) && ts[IndexOf(ts, id)].when_ == when_
    ensures Ids(RemoveEntry(ts, when_, id)) == Ids(ts) - {id}
  {
    var k := IndexOf(ts, id);
    RemoveSplits(ts, when_, id, k);
    var us := RemoveEntry(ts, when_, id);
    forall i | 0 <= i < |ts| && i != k ensures ts[i].id in Ids(us) {
      assert us[if i < k then i else i - 1] == ts[i];
    }
    forall i | 0 <= i < |us| ensures us[i].id != id && us[i].id in Ids(ts) {
      assert us[i] == ts[if i < k then i else i + 1];
    }
  }

  lemma RemoveKeeps(ts: seq<Entry>, active: map<nat, int>, id: nat)
    requires Sorted(ts) && Distinct(ts) && Agree(ts, active) && id in active
    ensures var us := RemoveEntry(ts, active[id], id); Sorted(us) && Distinct(us) && Agree(us, active - {id})
  {
    var k := IndexOf(ts, id);
    RemoveOrder(ts, active[id], id);
    RemoveIds(ts, active[id], id);
    RemoveSplits(ts, active[id], id, k);
  }

  lemma SplitIds(ts: seq<Entry>, k: nat)
    requires k <= |ts|
    ensures Ids(ts) == Ids(ts[..k]) + Ids(ts[k..])
    ensures Distinct(ts) ==> Ids(ts[..k]) !! Ids(ts[k..])
  {
    forall i | 0 <= i < |ts| ensures ts[i].id in Ids(ts[..k]) + Ids(ts[k..]) {
      if i < k { assert ts[..k][i] == ts[i]; } else { assert ts[k..][i - k] == ts[i]; }
    }
    forall id | id in Ids(ts[..k]) ensures id in Ids(ts) {
      var i :| 0 <= i < k && ts[..k][i].id == id;
      assert ts[i].id == id;
    }
    forall id | id in Ids(ts[k..]) ensures id in Ids(ts) {
      var i :| 0 <= i < |ts| - k && ts[k..][i].id == id;
      assert ts[k + i].id == id;
    }
  }

  lemma IdsSnoc(ts: seq<Entry>, e: Entry)
    ensures Ids(ts + [e]) == Ids(ts) + {e.id}
  {
    var us := ts + [e];
    SplitIds(us, |ts|);
    assert us[..|ts|] == ts && us[|ts|..] == [e];
    assert Ids([e]) == {e.id} by { assert [e][0] == e; }
  }

  lemma SplitKeeps(ts: seq<Entry>, active: map<nat, int>, k: nat)
    requires Sorted(ts) && Distinct(ts) && Agree(ts, active) && k <= |ts|
    ensures var us := ts[k..]; Sorted(us) && Distinct(us) && Agree(us, active - Ids(ts[..k]))
    ensures Sorted(ts[..k]) && Distinct(ts[..k]) && Ids(ts[..k]) <= active.Keys
  {
    SplitIds(ts, k);
    var us := ts[k..];
    forall i | 0 <= i < |us| ensures us[i].id in Ids(us) { }
  }

  // ---------- The invariant ----------

  /** Only the table and the ids used may differ. */
  ghost predicate SameRound(s: Timers, t: Timers) {
    && t.batch == s.batch && t.expired == s.expired && t.current == s.current && t.log == s.log
    && t.now == s.now && t.logStart == s.logStart && t.clock == s.clock && s.used <= t.used
  }

  lemma HistoryStays(s: Timers, t: Timers)
    requires History(s) && SameRound(s, t)
    ensures History(t)
  {
  }

  lemma ExpiredWereUsed(s: Timers)
    requires History(s)
    ensures forall i :: 0 <= i < |s.expired| ==> s.expired[i].id in s.used
    ensures s.current.Some? ==> s.current.value.id in s.used
  {
    var n := |s.batch| - |s.expired|;
    forall i | 0 <= i < |s.expired| ensures s.expired[i].id in s.used { assert s.batch[n + i].id in Ids(s.batch); }
    if s.current.Some? { assert s.batch[n - 1].id in Ids(s.batch); }
  }

  lemma AddKeepsTable(s: Timers, id: nat, when_: int, period: Option<nat>)
    requires Scheduled(s) && id !in s.used
    ensures Scheduled(AddTimer(s, id, when_, period))
  {
    InsertOrder(s.timers, Entry(when_, id, period));
    InsertKeeps(s.timers, s.active, Entry(when_, id, period));
  }

  lemma AddKeepsRound(s: Timers, t: Timers, id: nat)
    requires Round(s) && SameRound(s, t) && id !in s.used && t.active.Keys == s.active.Keys + {id}
    ensures Round(t)
  {
    HistoryStays(s, t);
    ExpiredWereUsed(s);
  }

  lemma AddKeeps(s: Timers, id: nat, when_: int, period: Option<nat>)
    requires Inv(s) && Enabled(s, Add(id, when_, period))
    ensures Inv(Next(s, Add(id, when_, period)))
  {
    AddKeepsTable(s, id, when_, period);
    if s.calling { AddKeepsRound(s, AddTimer(s, id, when_, period), id); }
  }

  lemma CancelKeepsTable(s: Timers, id: nat)
    requires Scheduled(s)
    ensures Scheduled(CancelTimer(s, id)) && CancelTimer(s, id).active.Keys <= s.active.Keys
  {
    if id in s.active { RemoveKeeps(s.timers, s.active, id); }
  }

  lemma SmallerTableKeepsRound(s: Timers, t: Timers)
    requires Round(s) && SameRound(s, t) && t.active.Keys <= s.active.Keys
    ensures Round(t)
  {
    HistoryStays(s, t);
  }

  lemma CancelKeeps(s: Timers, id: nat)
    requires Inv(s) && Enabled(s, Cancel(id))
    ensures Inv(Next(s, Cancel(id)))
  {
    CancelKeepsTable(s, id);
    if s.calling { SmallerTableKeepsRound(s, CancelTimer(s, id)); }
  }

  lemma BeginKeeps(s: Timers)
    requires Inv(s) && Enabled(s, Begin)
    ensures Inv(Next(s, Begin))
  {
    var k := Due(s.timers, s.clock);
    SplitKeeps(s.timers, s.active, k);
    SplitIds(s.timers, k);
    var t := Next(s, Begin);
    assert t.batch[0..] == t.batch;
    forall i | 0 <= i < |t.expired| ensures t.expired[i].id !in t.active {
      assert t.expired[i].id in Ids(t.expired);
    }
  }

  lemma CallKeeps(s: Timers)
    requires Inv(s) && Enabled(s, Call)
    ensures Inv(Next(s, Call))
  {
    assert s.expired[0] == s.batch[|s.batch| - |s.expired|];
    assert s.expired[1..] == s.batch[|s.batch| - |s.expired| + 1..];
  }

  /** A timer put back into the table while its round goes on. */
  lemma RenewKeeps(s: Timers, f: Entry)
    requires Scheduled(s) && f.id !in s.active && f.id in s.used
    ensures Scheduled(s.(timers := Insert(s.timers, f), active := s.active[f.id := f.when_]))
  {
    InsertOrder(s.timers, f);
    InsertKeeps(s.timers, s.active, f);
  }

  lemma RunningIsNotToCome(s: Timers, i: nat)
    requires History(s) && s.current.Some? && i < |s.expired|
    ensures s.expired[i].id != s.current.value.id
  {
    var n := |s.batch| - |s.expired|;
    assert s.expired[i] == s.batch[n + i] && s.current.value == s.batch[n - 1];
  }

  lemma RoundGoesOn(s: Timers, t: Timers)
    requires Round(s) && s.current.Some?
    requires t == s.(current := None, timers := t.timers, active := t.active)
    requires t.active.Keys <= s.active.Keys + {s.current.value.id}
    ensures Round(t)
  {
    HistoryStays(s.(current := None), t);
    forall i | 0 <= i < |s.expired| ensures s.expired[i].id !in t.active { RunningIsNotToCome(s, i); }
  }

  lemma FinishKeepsTable(s: Timers)
    requires Scheduled(s) && s.current.Some? && s.current.value.id !in s.active && s.current.value.id in s.used
    ensures Scheduled(FinishCall(s)) && FinishCall(s).active.Keys <= s.active.Keys + {s.current.value.id}
  {
    var e := s.current.value;
    if e.period.Some? && e.id !in s.canceling {
      RenewKeeps(s, e.(when_ := s.now + e.period.value));
    }
  }

  lemma FinishKeeps(s: Timers)
    requires Inv(s) && Enabled(s, Finish)
    ensures Inv(Next(s, Finish))
  {
    assert s.current.value.id in Ids(s.batch);
    FinishKeepsTable(s);
    RoundGoesOn(s, FinishCall(s));
  }

  lemma StepKeeps(s: Timers, step: Step)
    requires Inv(s) && Enabled(s, step)
    ensures Inv(Next(s, step))
  {
    match step
    case Add(id, when_, period) => AddKeeps(s, id, when_, period);
    case Cancel(id) => CancelKeeps(s, id);
    case Begin => BeginKeeps(s);
    case Call => CallKeeps(s);
    case Finish => FinishKeeps(s);
    case _ =>
  }

  /** Between rounds, whenever a timer is scheduled, the timerfd expires (or has expired and waits to be read)
      exactly at the earliest deadline, or one microsecond after the last reset if that is later. */
  ghost predicate Armed(s: Timers) {
    !s.calling && s.timers != [] ==>
      s.alarm == Some(Max(s.timers[0].when_, s.lastReset + LEAST_DELAY)) && s.lastReset <= s.clock
  }

  ghost predicate OnTime(s: Timers) {
    forall i :: 0 <= i < |s.log| ==> s.log[i].deadline <= s.log[i].at <= s.clock
  }

  lemma StepKeepsArmed(s: Timers, step: Step)
    requires Inv(s) && Armed(s) && Enabled(s, step)
    ensures Armed(Next(s, step))
  {
    match step
    case Add(id, when_, period) =>
      InsertOrder(s.timers, Entry(when_, id, period));
    case Cancel(id) =>
      if id in s.active {
        var k := IndexOf(s.timers, id);
        RemoveOrder(s.timers, s.active[id], id);
      }
    case _ =>
  }

  lemma StepKeepsOnTime(s: Timers, step: Step)
    requires Inv(s) && OnTime(s) && Enabled(s, step)
    ensures OnTime(Next(s, step))
  {
    if step.Call? {
      assert s.expired[0] == s.batch[|s.batch| - |s.expired|];
    }
  }

  lemma {:induction false} RunKeeps(s: Timers, steps: seq<Step>)
    requires Inv(s) && Armed(s) && OnTime(s) && IsRun(s, steps)
    ensures var t := After(s, steps); Inv(t) && Armed(t) && OnTime(t)
    decreases steps
  {
    if steps != [] {
      StepKeeps(s, steps[0]);
      StepKeepsArmed(s, steps[0]);
      StepKeepsOnTime(s, steps[0]);
      RunKeeps(Next(s, steps[0]), steps[1..]);
    }
  }

  /** After any run: the index agrees with the ordered table, the alarm is set for the earliest timer,
      and no timer was called before its deadline. */
  lemma EveryRun(steps: seq<Step>)
    requires IsRun(START, steps)
    ensures var s := After(START, steps);
      && Sorted(s.timers) && Distinct(s.timers) && Agree(s.timers, s.active)
      && (!s.calling && s.timers != [] ==>
            s.alarm == Some(Max(s.timers[0].when_, s.lastReset + LEAST_DELAY)))
      && (forall i :: 0 <= i < |s.log| ==> s.log[i].deadline <= s.log[i].at)
  {
    assert Ids([]) == {};
    RunKeeps(START, steps);
  }

  lemma RoundLog(t: Timers, i: nat)
    requires Round(t) && t.expired == [] && i < |t.batch|
    ensures |t.log| == t.logStart + |t.batch|
    ensures t.log[t.logStart + i].id == t.batch[i].id && t.log[t.logStart + i].deadline == t.batch[i].when_
  {
    var j := t.logStart + i;
    assert t.log[j].id == t.batch[j - t.logStart].id && t.log[j].deadline == t.batch[j - t.logStart].when_;
  }

  lemma DueSplits(ts: seq<Entry>, now: int)
    requires Sorted(ts)
    ensures forall i :: Due(ts, now) <= i < |ts| ==> ts[i].when_ > now
  {
    var k := Due(ts, now);
    forall i | k <= i < |ts| ensures ts[i].when_ > now { assert ts[k].when_ <= ts[i].when_; }
  }

  /** Since s, t has called exactly the timers that were due in s, each once, in their order. */
  ghost predicate LoggedDue(s: Timers, t: Timers) {
    var k := Due(s.timers, s.clock);
    && |t.log| == |s.log| + k
    && forall i :: 0 <= i < k ==>
         t.log[|s.log| + i].id == s.timers[i].id && t.log[|s.log| + i].deadline == s.timers[i].when_
  }

  /** When a round is about to end it has called exactly the timers that were due at its start,
      each once, in deadline order, whatever its callbacks cancelled; what stayed behind was not due. */
  lemma RoundIsDueBatch(s: Timers, steps: seq<Step>)
    requires Inv(s) && Armed(s) && OnTime(s) && Enabled(s, Begin) && IsRun(Next(s, Begin), steps)
    requires forall i :: 0 <= i < |steps| ==> !steps[i].End?
    requires Enabled(After(Next(s, Begin), steps), End)
    ensures LoggedDue(s, After(Next(s, Begin), steps))
    ensures forall i :: Due(s.timers, s.clock) <= i < |s.timers| ==> s.timers[i].when_ > s.clock
  {
    BeginFacts(s, Next(s, Begin));
    DueSplits(s.timers, s.clock);
    RoundFrom(s, Next(s, Begin), steps);
  }

  /** The state after the snapshot was taken in s. */
  ghost predicate Begun(s: Timers, a: Timers) {
    && Inv(a) && Armed(a) && OnTime(a) && a.calling
    && a.batch == s.timers[..Due(s.timers, s.clock)] && a.logStart == |s.log|
  }

  lemma RoundFrom(s: Timers, a: Timers, steps: seq<Step>)
    requires Begun(s, a)
    requires IsRun(a, steps) && Enabled(After(a, steps), End)
    requires forall i :: 0 <= i < |steps| ==> !steps[i].End?
    ensures LoggedDue(s, After(a, steps))
  {
    MidRound(a, steps);
    RoundResult(s, After(a, steps));
  }

  lemma BeginFacts(s: Timers, a: Timers)
    requires Inv(s) && Armed(s) && OnTime(s) && Enabled(s, Begin) && a == Next(s, Begin)
    ensures Begun(s, a)
  {
    StepKeeps(s, Begin);
    StepKeepsArmed(s, Begin);
    StepKeepsOnTime(s, Begin);
  }

  lemma MidRound(a: Timers, steps: seq<Step>)
    requires Inv(a) && Armed(a) && OnTime(a) && a.calling && IsRun(a, steps)
    requires forall i :: 0 <= i < |steps| ==> !steps[i].End?
    ensures var t := After(a, steps); Round(t) && t.batch == a.batch && t.logStart == a.logStart
  {
    BatchFixed(a, steps);
    RunKeeps(a, steps);
  }

  lemma RoundResult(s: Timers, t: Timers)
    requires Round(t) && t.batch == s.timers[..Due(s.timers, s.clock)] && t.logStart == |s.log| && t.expired == []
    ensures LoggedDue(s, t)
  {
    forall i | 0 <= i < |t.batch|
      ensures t.log[|s.log| + i].id == s.timers[i].id && t.log[|s.log| + i].deadline == s.timers[i].when_
    {
      RoundLog(t, i);
    }
  }

  lemma {:induction false} BatchFixed(s: Timers, steps: seq<Step>)
    requires s.calling && IsRun(s, steps)
    requires forall i :: 0 <= i < |steps| ==> !steps[i].End?
    ensures var t := After(s, steps); t.calling && t.batch == s.batch && t.logStart == s.logStart
    decreases steps
  {
    if steps != [] {
      assert !steps[0].End?;
      BatchFixed(Next(s, steps[0]), steps[1..]);
    }
  }

  // ---------- Cancellation ----------

  function Calls(log: seq<Firing>, id: nat): nat {
    if log == [] then 0 else Calls(log[..|log| - 1], id) + if log[|log| - 1].id == id then 1 else 0
  }

  /** The id was used, is not scheduled, not due in this round, and will not be scheduled again. */
  ghost predicate Dead(s: Timers, id: nat) {
    && id in s.used && id !in s.active && id !in Ids(s.expired)
    && (s.current.Some? && s.current.value.id == id ==> s.current.value.period.None? || id in s.canceling)
  }

  /** Cancelled in the current round but still to be called in it. */
  ghost predicate Doomed(s: Timers, id: nat) {
    && s.calling && id in s.used && id !in s.active && id in s.canceling
    && id in Ids(s.expired) && (s.current.Some? ==> s.current.value.id != id)
  }

  lemma LogGrows(s: Timers, step: Step, id: nat)
    requires Enabled(s, step)
    ensures Calls(Next(s, step).log, id)
      == Calls(s.log, id) + if step.Call? && s.expired[0].id == id then 1 else 0
  {
    if step.Call? {
      var t := Next(s, step);
      assert t.log[..|t.log| - 1] == s.log;
    }
  }

  lemma TailIds(s: Timers)
    requires Inv(s) && s.calling && s.expired != []
    ensures Ids(s.expired) == {s.expired[0].id} + Ids(s.expired[1..])
    ensures s.expired[0].id !in Ids(s.expired[1..])
  {
    var ts := s.expired;
    SplitIds(ts, 1);
    assert Ids(ts[..1]) == {ts[0].id} by { assert ts[..1][0] == ts[0]; }
    assert Distinct(ts) by {
      forall i, j | 0 <= i < j < |ts| ensures ts[i].id != ts[j].id {
        var n := |s.batch| - |ts|;
        assert ts[i] == s.batch[n + i] && ts[j] == s.batch[n + j];
      }
    }
  }

  lemma DeadBegin(s: Timers, id: nat)
    requires Agree(s.timers, s.active) && Dead(s, id)
    ensures Dead(BeginRound(s).(current := None), id)
  {
    SplitIds(s.timers, Due(s.timers, s.clock));
  }

  lemma DeadCall(s: Timers, id: nat)
    requires Inv(s) && Dead(s, id) && Enabled(s, Call)
    ensures Dead(CallNext(s), id) && Calls(CallNext(s).log, id) == Calls(s.log, id)
  {
    LogGrows(s, Call, id);
    TailIds(s);
  }

  lemma DeadFinish(s: Timers, id: nat)
    requires s.current.Some? && Dead(s, id)
    ensures Dead(FinishCall(s), id)
  {
  }

  lemma DeadStep(s: Timers, step: Step, id: nat)
    requires Inv(s) && Dead(s, id) && Enabled(s, step)
    ensures Dead(Next(s, step), id) && Calls(Next(s, step).log, id) == Calls(s.log, id)
  {
    match step
    case Begin => DeadBegin(s, id);
    case Call => DeadCall(s, id);
    case Finish => DeadFinish(s, id);
    case _ =>
  }

  lemma {:induction false} DeadStaysDead(s: Timers, steps: seq<Step>, id: nat)
    requires Inv(s) && Dead(s, id) && IsRun(s, steps)
    ensures Dead(After(s, steps), id) && Calls(After(s, steps).log, id) == Calls(s.log, id)
    decreases steps
  {
    if steps != [] {
      DeadStep(s, steps[0], id);
      StepKeeps(s, steps[0]);
      DeadStaysDead(Next(s, steps[0]), steps[1..], id);
    }
  }

  /** A timer cancelled while it is in active_ is never called again. */
  lemma CancelledIsNeverCalled(s: Timers, id: nat, steps: seq<Step>)
    requires Inv(s) && id in s.active && Enabled(s, Cancel(id)) && IsRun(Next(s, Cancel(id)), steps)
    ensures Calls(After(Next(s, Cancel(id)), steps).log, id) == Calls(s.log, id)
    ensures id !in After(Next(s, Cancel(id)), steps).active
  {
    CancelKeeps(s, id);
    assert id !in Ids(s.expired);
    DeadStaysDead(Next(s, Cancel(id)), steps, id);
  }

  lemma DoomedStep(s: Timers, step: Step, id: nat)
    requires Inv(s) && Doomed(s, id) && Enabled(s, step)
    ensures var t := Next(s, step);
      || (Doomed(t, id) && Calls(t.log, id) == Calls(s.log, id))
      || (Dead(t, id) && Calls(t.log, id) == Calls(s.log, id) + 1)
  {
    LogGrows(s, step, id);
    if step.Call? { TailIds(s); }
  }

  /** A timer cancelled after it entered the snapshot is called once more, in that round, and never again;
      it is not scheduled again. */
  lemma {:induction false} CancelledInSnapshotIsCalledOnce(s: Timers, steps: seq<Step>, id: nat)
    requires Inv(s) && Doomed(s, id) && IsRun(s, steps)
    ensures var t := After(s, steps);
      && id !in t.active
      && Calls(t.log, id) <= Calls(s.log, id) + 1
      && (!t.calling ==> Calls(t.log, id) == Calls(s.log, id) + 1)
    decreases steps
  {
    if steps != [] {
      var t := Next(s, steps[0]);
      DoomedStep(s, steps[0], id);
      StepKeeps(s, steps[0]);
      if Doomed(t, id) {
        CancelledInSnapshotIsCalledOnce(t, steps[1..], id);
      } else {
        DeadStaysDead(t, steps[1..], id);
      }
    }
  }

  /** Cancelling a snapshot timer from another callback dooms it; cancelling a timer from its own callback
      ends it at once. */
  lemma CancelInsideRound(s: Timers, id: nat)
    requires Inv(s) && s.calling && s.current.Some?
    ensures id in Ids(s.expired) ==> Doomed(Next(s, Cancel(id)), id)
    ensures s.current.value.id == id ==> Dead(Next(s, Cancel(id)), id)
  {
    var n := |s.batch| - |s.expired|;
    assert s.current.value == s.batch[n - 1];
    forall i | 0 <= i < |s.expired|
      ensures s.expired[i].id in s.used && s.expired[i].id != s.current.value.id && s.expired[i].id !in s.active
    {
      assert s.expired[i] == s.batch[n + i];
      assert s.batch[n + i].id in Ids(s.batch);
    }
    assert s.current.value.id in Ids(s.batch);
  }

  /** A one-shot timer is dead from its first call on. */
  lemma OneShotIsCalledOnce(s: Timers, steps: seq<Step>)
    requires Inv(s) && Enabled(s, Call) && s.expired[0].period.None? && IsRun(Next(s, Call), steps)
    ensures var id := s.expired[0].id;
      Calls(After(Next(s, Call), steps).log, id) == Calls(s.log, id) + 1
  {
    var id := s.expired[0].id;
    LogGrows(s, Call, id);
    TailIds(s);
    CallKeeps(s);
    assert s.expired[0] == s.batch[|s.batch| - |s.expired|];
    assert id in Ids(s.batch);
    DeadStaysDead(Next(s, Call), steps, id);
  }

  // ---------- One turn of a search through the table ----------

  lemma InsertTurn(ts: seq<Entry>, i: nat, e: Entry)
    requires i < |ts| && ts[i].when_ <= e.when_
    ensures ts[..i] + Insert(ts[i..], e) == ts[..i + 1] + Insert(ts[i + 1..], e)
  {
    TakeSnoc(ts, i);
    Associate(ts[..i], [ts[i]], Insert(ts[i + 1..], e));
  }

  lemma InsertHere(ts: seq<Entry>, i: nat, e: Entry)
    requires i <= |ts| && (i < |ts| ==> e.when_ < ts[i].when_)
    ensures ts[..i] + Insert(ts[i..], e) == ts[..i] + [e] + ts[i..]
  {
    Associate(ts[..i], [e], ts[i..]);
  }

  lemma RemoveTurn(ts: seq<Entry>, i: nat, when_: int, id: nat)
    requires i < |ts| && !(ts[i].when_ == when_ && ts[i].id == id)
    ensures ts[..i] + RemoveEntry(ts[i..], when_, id) == ts[..i + 1] + RemoveEntry(ts[i + 1..], when_, id)
  {
    TakeSnoc(ts, i);
    Associate(ts[..i], [ts[i]], RemoveEntry(ts[i + 1..], when_, id));
  }

  lemma RemoveHere(ts: seq<Entry>, i: nat, when_: int, id: nat)
    requires i < |ts| && ts[i].when_ == when_ && ts[i].id == id
    ensures RemoveEntry(ts[i..], when_, id) == ts[i + 1..]
  {
    TakeSnoc(ts, i);
  }

  lemma DueTurn(ts: seq<Entry>, k: nat, now: int)
    requires k < |ts| && ts[k].when_ <= now
    ensures Due(ts[k..], now) == 1 + Due(ts[k + 1..], now)
    ensures ts[..k] + [ts[k]] == ts[..k + 1] && ts[k..][1..] == ts[k + 1..]
    ensures Ids(ts[..k + 1]) == Ids(ts[..k]) + {ts[k].id}
  {
    TakeSnoc(ts, k);
    IdsSnoc(ts[..k], ts[k]);
  }

  lemma Removed(active: map<nat, int>, ids: set<nat>, id: nat)
    ensures active - ids - {id} == active - (ids + {id})
  {
  }

  // ---------- Members of the table ----------

  lemma {:induction false} InsertMembers(ts: seq<Entry>, e: Entry, x: Entry)
    ensures x in Insert(ts, e) <==> x == e || x in ts
  {
    if !(ts == [] || e.when_ < ts[0].when_) {
      InsertMembers(ts[1..], e, x);
    }
  }

  lemma {:induction false} RemoveMembers(ts: seq<Entry>, when_: int, id: nat, x: Entry)
    requires x in ts && x.id != id
    ensures x in RemoveEntry(ts, when_, id)
  {
    if !(ts[0].when_ == when_ && ts[0].id == id) && x != ts[0] {
      RemoveMembers(ts[1..], when_, id, x);
    }
  }

  lemma {:induction false} RemoveOnly(ts: seq<Entry>, when_: int, id: nat, x: Entry)
    requires x in RemoveEntry(ts, when_, id)
    ensures x in ts
  {
    if ts != [] && !(ts[0].when_ == when_ && ts[0].id == id) && x != ts[0] {
      RemoveOnly(ts[1..], when_, id, x);
    }
  }

  // ---------- A one-shot timer over its whole life ----------

  predicate IsOneShot(e: Entry, id: nat) {
    e.id == id ==> e.period.None?
  }

  /** Wherever the id stands, it stands for a one-shot timer. */
  ghost predicate OneShot(s: Timers, id: nat) {
    && id in s.used
    && (forall e :: e in s.timers || e in s.expired ==> IsOneShot(e, id))
    && (s.current.Some? ==> IsOneShot(s.current.value, id))
  }

  /** How many calls are still to come: scheduled, or in the rest of the snapshot. */
  function Ahead(s: Timers, id: nat): nat {
    if id in s.active || id in Ids(s.expired) then 1 else 0
  }

  lemma OneShotStays(s: Timers, step: Step, id: nat)
    requires OneShot(s, id) && Enabled(s, step)
    ensures OneShot(Next(s, step), id)
  {
    match step
    case Add(id', when_, period) =>
      forall e | e in Next(s, step).timers ensures IsOneShot(e, id) {
        InsertMembers(s.timers, Entry(when_, id', period), e);
      }
    case Cancel(id') =>
      forall e | e in Next(s, step).timers ensures IsOneShot(e, id) {
        if id' in s.active { RemoveOnly(s.timers, s.active[id'], id', e); }
      }
    case Finish =>
      var c := s.current.value;
      if c.period.Some? {
        forall e | e in Next(s, step).timers ensures IsOneShot(e, id) {
          InsertMembers(s.timers, c.(when_ := s.now + c.period.value), e);
        }
      }
    case _ =>
  }

  /** Calls made and calls still to come. */
  function Lifetime(s: Timers, id: nat): nat {
    Calls(s.log, id) + Ahead(s, id)
  }

  lemma OneShotAdd(s: Timers, id': nat, when_: int, period: Option<nat>, id: nat)
    requires id' != id
    ensures Lifetime(AddTimer(s, id', when_, period), id) == Lifetime(s, id)
  {
  }

  lemma OneShotCancel(s: Timers, id': nat, id: nat)
    ensures Lifetime(CancelTimer(s, id'), id) <= Lifetime(s, id)
    ensures id' != id ==> Lifetime(CancelTimer(s, id'), id) == Lifetime(s, id)
  {
  }

  lemma OneShotBegin(s: Timers, id: nat)
    requires Agree(s.timers, s.active) && s.expired == []
    ensures Lifetime(BeginRound(s), id) == Lifetime(s, id)
  {
    SplitIds(s.timers, Due(s.timers, s.clock));
    assert Ids(s.expired) == {};
  }

  lemma OneShotCall(s: Timers, id: nat)
    requires Inv(s) && Enabled(s, Call)
    ensures Lifetime(CallNext(s), id) == Lifetime(s, id)
  {
    LogGrows(s, Call, id);
    TailIds(s);
    assert s.expired[0].id !in s.active;
  }

  lemma OneShotFinish(s: Timers, id: nat)
    requires s.current.Some? && IsOneShot(s.current.value, id)
    ensures Lifetime(FinishCall(s), id) == Lifetime(s, id)
  {
  }

  lemma OneShotStep(s: Timers, step: Step, id: nat)
    requires Inv(s) && OneShot(s, id) && Enabled(s, step)
    ensures Lifetime(Next(s, step), id) <= Lifetime(s, id)
    ensures step != Cancel(id) ==> Lifetime(Next(s, step), id) == Lifetime(s, id)
  {
    match step
    case Add(id', when_, period) => OneShotAdd(s, id', when_, period, id);
    case Cancel(id') => OneShotCancel(s, id', id);
    case Begin => OneShotBegin(s, id);
    case Call => OneShotCall(s, id);
    case Finish => OneShotFinish(s, id);
    case _ =>
  }

  lemma {:induction false} OneShotRun(s: Timers, steps: seq<Step>, id: nat)
    requires Inv(s) && OneShot(s, id) && IsRun(s, steps)
    ensures var t := After(s, steps);
      && Lifetime(t, id) <= Lifetime(s, id)
      && ((forall i :: 0 <= i < |steps| ==> steps[i] != Cancel(id)) ==> Lifetime(t, id) == Lifetime(s, id))
    decreases steps
  {
    if steps != [] {
      OneShotStep(s, steps[0], id);
      OneShotStays(s, steps[0], id);
      StepKeeps(s, steps[0]);
      OneShotRun(Next(s, steps[0]), steps[1..], id);
      assert forall i :: 0 < i < |steps| ==> steps[i] == steps[1..][i - 1];
    }
  }

  lemma AddedIsOneShot(s: Timers, id: nat, when_: int)
    requires Inv(s) && Enabled(s, Add(id, when_, None))
    ensures var t := Next(s, Add(id, when_, None));
      OneShot(t, id) && Ahead(t, id) == 1 && Calls(t.log, id) == Calls(s.log, id)
  {
    var e := Entry(when_, id, None);
    var t := Next(s, Add(id, when_, None));
    forall x | x in t.timers ensures IsOneShot(x, id) {
      InsertMembers(s.timers, e, x);
      if x in s.timers {
        var i :| 0 <= i < |s.timers| && s.timers[i] == x;
        assert s.timers[i].id in Ids(s.timers);
      }
    }
    if s.calling {
      forall i | 0 <= i < |s.expired| ensures s.expired[i].id != id {
        assert s.expired[i] == s.batch[|s.batch| - |s.expired| + i];
        assert s.batch[|s.batch| - |s.expired| + i].id in Ids(s.batch);
      }
      assert s.current.value == s.batch[|s.batch| - |s.expired| - 1];
      assert s.batch[|s.batch| - |s.expired| - 1].id in Ids(s.batch);
    }
  }

  /** From its scheduling on, a one-shot timer is called at most once over any run; if it is never cancelled it
      has been called exactly once or is still to be called. */
  lemma OneShotLife(s: Timers, id: nat, when_: int, steps: seq<Step>)
    requires Inv(s) && Enabled(s, Add(id, when_, None)) && IsRun(Next(s, Add(id, when_, None)), steps)
    ensures var t := After(Next(s, Add(id, when_, None)), steps);
      && Calls(t.log, id) <= Calls(s.log, id) + 1
      && ((forall i :: 0 <= i < |steps| ==> steps[i] != Cancel(id)) ==>
            Calls(t.log, id) == Calls(s.log, id) + if id in t.active || id in Ids(t.expired) then 0 else 1)
  {
    AddKeeps(s, id, when_, None);
    AddedIsOneShot(s, id, when_);
    OneShotRun(Next(s, Add(id, when_, None)), steps, id);
  }

  // ---------- Renewal ----------

  /** The timer still repeats: scheduled, or in this round's snapshot or running and not cancelled. */
  ghost predicate Alive(s: Timers, id: nat) {
    || (exists e :: e in s.timers && e.id == id && e.period.Some?)
    || (id !in s.canceling && exists e :: e in s.expired && e.id == id && e.period.Some?)
    || (id !in s.canceling && s.current.Some? && s.current.value.id == id && s.current.value.period.Some?)
  }

  lemma ScheduledStep(s: Timers, step: Step, id: nat, e: Entry)
    requires Enabled(s, step) && step != Cancel(id)
    requires e in s.timers && e.id == id && e.period.Some?
    ensures Alive(Next(s, step), id)
  {
    var t := Next(s, step);
    match step
    case Add(id', when_, period) => InsertMembers(s.timers, Entry(when_, id', period), e);
    case Cancel(id') => if id' in s.active { RemoveMembers(s.timers, s.active[id'], id', e); }
    case Begin =>
      var k := Due(s.timers, s.clock);
      assert s.timers == s.timers[..k] + s.timers[k..];
      assert e in t.timers || e in t.expired;
    case Finish =>
      var c := s.current.value;
      if t.timers != s.timers { InsertMembers(s.timers, c.(when_ := s.now + c.period.value), e); }
    case _ =>
  }

  lemma RunningStep(s: Timers, step: Step, id: nat)
    requires Inv(s) && Enabled(s, step) && step != Cancel(id) && s.current.Some?
    requires id !in s.canceling && s.current.value.id == id && s.current.value.period.Some?
    ensures Alive(Next(s, step), id)
  {
    if step.Finish? {
      var c := s.current.value;
      var renewed := c.(when_ := s.now + c.period.value);
      InsertMembers(s.timers, renewed, renewed);
    }
  }

  lemma SnapshotStep(s: Timers, step: Step, id: nat, e: Entry)
    requires Inv(s) && Enabled(s, step) && step != Cancel(id)
    requires id !in s.canceling && e in s.expired && e.id == id && e.period.Some?
    ensures Alive(Next(s, step), id)
  {
    if step.Call? {
      assert s.expired == [s.expired[0]] + s.expired[1..];
    }
    assert e in Next(s, step).expired || (step.Call? && s.expired[0] == e);
  }

  lemma AliveStep(s: Timers, step: Step, id: nat)
    requires Inv(s) && Alive(s, id) && Enabled(s, step) && step != Cancel(id)
    ensures Alive(Next(s, step), id)
  {
    if e :| e in s.timers && e.id == id && e.period.Some? {
      ScheduledStep(s, step, id, e);
    } else if id !in s.canceling && s.current.Some? && s.current.value.id == id && s.current.value.period.Some? {
      RunningStep(s, step, id);
    } else {
      var e :| e in s.expired && e.id == id && e.period.Some?;
      SnapshotStep(s, step, id, e);
    }
  }

  /** A repeating timer repeats until it is cancelled. */
  lemma {:induction false} RepeatsUntilCancelled(s: Timers, steps: seq<Step>, id: nat)
    requires Inv(s) && Alive(s, id) && IsRun(s, steps)
    requires forall i :: 0 <= i < |steps| ==> steps[i] != Cancel(id)
    ensures Alive(After(s, steps), id)
    decreases steps
  {
    if steps != [] {
      assert steps[0] != Cancel(id);
      AliveStep(s, steps[0], id);
      StepKeeps(s, steps[0]);
      RepeatsUntilCancelled(Next(s, steps[0]), steps[1..], id);
    }
  }
}

/** The timer part of EventLoop as an object; each method is one step of the model, HandleTimerfd a round. */
module TimerCode {
  import opened Prelude
  import Spec = TimerSpec
  import Thm = TimerTheorems

  // What a callback may do: schedule a timer, cancel one, or take time.
  datatype Act = RunAt(when_: int, period: Option<nat>) | CancelTimer(id: nat) | Elapse(time: nat)

  ghost predicate Below(ids: set<nat>, n: nat) {
    forall id :: id in ids ==> id < n
  }

  class TimerQueue {
    var timers: seq<Spec.Entry>
    var active: map<nat, int>
    var calling: bool
    var canceling: set<nat>
    var nextId: nat
    // The kernel's side: the steady clock and the timerfd.
    var clock: int
    var alarm: Option<int>
    ghost var lastReset: int
    // The round in progress, and the history.
    ghost var batch: seq<Spec.Entry>
    ghost var expired: seq<Spec.Entry>
    ghost var current: Option<Spec.Entry>
    ghost var now: int
    ghost var logStart: nat
    ghost var used: set<nat>
    ghost var log: seq<Spec.Firing>

    ghost function View(): Spec.Timers
      reads this
    {
      Spec.Timers(timers, active, calling, canceling, batch, expired, current, now, logStart,
                  clock, alarm, lastReset, used, log)
    }

    ghost predicate Valid()
      reads this
    {
      Below(used, nextId) && (!calling ==> current.None?)
    }

    constructor ()
      ensures Valid() && View() == Spec.START
    {
      timers, active, calling, canceling, nextId := [], map[], false, {}, 1;
      clock, alarm, lastReset := 0, None, 0;
      batch, expired, current, now, logStart, used, log := [], [], None, 0, 0, {}, [];
    }

    method ResetTimerfd(earliest: int)
      modifies this`alarm, this`lastReset
      ensures View() == Spec.ResetTimerfd(old(View()), earliest)
    {
      var ns := earliest - clock;
      if ns < 1000 { ns := 1000; }
      alarm := Some(clock + ns);
      lastReset := clock;
    }

    method Emplace(e: Spec.Entry)
      modifies this`timers
      ensures timers == Spec.Insert(old(timers), e)
    {
      var i := 0;
      ghost var ts := timers;
      assert ts[..0] + Spec.Insert(ts[0..], e) == Spec.Insert(ts, e);
      while i < |timers| && timers[i].when_ <= e.when_
        invariant 0 <= i <= |ts| && timers == ts
        invariant ts[..i] + Spec.Insert(ts[i..], e) == Spec.Insert(ts, e)
      {
        Thm.InsertTurn(ts, i, e);
        i := i + 1;
      }
      Thm.InsertHere(ts, i, e);
      timers := timers[..i] + [e] + timers[i..];
    }

    method AddTimerInLoop(id: nat, when_: int, period: Option<nat>)
      requires Valid() && id < nextId && Spec.Enabled(View(), Spec.Add(id, when_, period))
      modifies this
      ensures Valid() && nextId == old(nextId)
      ensures View() == Spec.Next(old(View()), Spec.Add(id, when_, period))
    {
      var earliestChanged := timers == [] || when_ < timers[0].when_;
      Emplace(Spec.Entry(when_, id, period));
      active := active[id := when_];
      used := used + {id};
      if earliestChanged {
        ResetTimerfd(timers[0].when_);
      }
    }

    /** RunAfter and RunEvery on the loop thread. */
    method RunAt(when_: int, period: Option<nat>) returns (id: nat)
      requires Valid() && (calling ==> current.Some?)
      modifies this
      ensures Valid() && Spec.Enabled(old(View()), Spec.Add(id, when_, period))
      ensures View() == Spec.Next(old(View()), Spec.Add(id, when_, period))
    {
      id := nextId;
      nextId := nextId + 1;
      AddTimerInLoop(id, when_, period);
    }

    /** Erases the entry of this id among those of its key. */
    method Erase(when_: int, id: nat)
      modifies this`timers
      ensures timers == Spec.RemoveEntry(old(timers), when_, id)
    {
      var i := 0;
      ghost var ts := timers;
      assert ts[..0] + Spec.RemoveEntry(ts[0..], when_, id) == Spec.RemoveEntry(ts, when_, id);
      while i < |timers|
        invariant 0 <= i <= |ts| && timers == ts
        invariant ts[..i] + Spec.RemoveEntry(ts[i..], when_, id) == Spec.RemoveEntry(ts, when_, id)
      {
        if timers[i].when_ == when_ && timers[i].id == id {
          Thm.RemoveHere(ts, i, when_, id);
          timers := timers[..i] + timers[i + 1..];
          return;
        }
        Thm.RemoveTurn(ts, i, when_, id);
        i := i + 1;
      }
    }

    method CancelTimerInLoop(id: nat)
      requires Valid() && (calling ==> current.Some?)
      modifies this
      ensures Valid() && nextId == old(nextId)
      ensures View() == Spec.Next(old(View()), Spec.Cancel(id))
    {
      if id in active {
        var when_ := active[id];
        Erase(when_, id);
        active := active - {id};
        if timers != [] && when_ <= timers[0].when_ {
          ResetTimerfd(timers[0].when_);
        }
      } else if calling {
        canceling := canceling + {id};
      }
    }

    method Perform(act: Act) returns (ghost step: Spec.Step)
      requires Valid() && calling && current.Some?
      modifies this
      ensures Valid() && calling && current == old(current) && now == old(now) && expired == old(expired)
      ensures Spec.Enabled(old(View()), step) && View() == Spec.Next(old(View()), step)
    {
      match act {
        case RunAt(when_, period) =>
          var id := RunAt(when_, period);
          step := Spec.Add(id, when_, period);
        case CancelTimer(id) =>
          CancelTimerInLoop(id);
          step := Spec.Cancel(id);
        case Elapse(time) =>
          step := Spec.Tick(clock + time);
          clock := clock + time;
      }
    }

    /** The body of one callback. */
    method Callback(acts: seq<Act>) returns (ghost trace: seq<Spec.Step>)
      requires Valid() && calling && current.Some?
      modifies this
      ensures Valid() && calling && current == old(current) && now == old(now) && expired == old(expired)
      ensures Spec.IsRun(old(View()), trace) && Spec.After(old(View()), trace) == View()
    {
      trace := [];
      for i := 0 to |acts|
        invariant Valid() && calling && current == old(current) && now == old(now) && expired == old(expired)
        invariant Spec.IsRun(old(View()), trace) && Spec.After(old(View()), trace) == View()
      {
        ghost var step := Perform(acts[i]);
        Spec.Extend(old(View()), trace, step);
        trace := trace + [step];
      }
    }

    /** The snapshot loop: moves what is due out of the table. */
    method TakeDue(time: int) returns (due: seq<Spec.Entry>)
      modifies this`timers, this`active
      ensures due == old(timers)[..Spec.Due(old(timers), time)]
      ensures timers == old(timers)[Spec.Due(old(timers), time)..]
      ensures active == old(active) - Spec.Ids(due)
    {
      due := [];
      ghost var all, k := timers, 0;
      assert Spec.Ids([]) == {};
      while timers != [] && timers[0].when_ <= time
        invariant 0 <= k <= |all| && due == all[..k] && timers == all[k..]
        invariant k + Spec.Due(timers, time) == Spec.Due(all, time)
        invariant active == old(active) - Spec.Ids(due)
      {
        var e := timers[0];
        active := active - {e.id};
        Thm.DueTurn(all, k, time);
        Thm.Removed(old(active), Spec.Ids(due), e.id);
        due := due + [e];
        timers := timers[1..];
        k := k + 1;
      }
    }

    /** Reading an expired timerfd disarms it; reading it early changes nothing. */
    method ReadTimerfd()
      modifies this`alarm
      ensures alarm == if old(alarm).Some? && old(alarm).value <= clock then None else old(alarm)
    {
      if alarm.Some? && alarm.value <= clock {
        alarm := None;
      }
    }

    method OpenRound(due: seq<Spec.Entry>)
      modifies this
      ensures View() == old(View()).(calling := true, canceling := {}, batch := due, expired := due,
                                     now := old(clock), logStart := |old(log)|)
      ensures nextId == old(nextId)
    {
      calling, canceling := true, {};
      batch, expired, now, logStart := due, due, clock, |log|;
    }

    /** HandleTimerfd up to its callbacks. */
    method BeginRound() returns (due: seq<Spec.Entry>)
      requires Valid() && !calling
      modifies this
      ensures Valid() && View() == Spec.Next(old(View()), Spec.Begin) && due == expired
    {
      ReadTimerfd();
      due := TakeDue(clock);
      OpenRound(due);
    }

    method BeginCall()
      requires Valid() && Spec.Enabled(View(), Spec.Call)
      modifies this`current, this`expired, this`log
      ensures Valid() && View() == Spec.Next(old(View()), Spec.Call)
    {
      ghost var e := expired[0];
      current, expired := Some(e), expired[1..];
      log := log + [Spec.Firing(e.id, e.when_, clock, now)];
    }

    /** What follows the callback of t. */
    method FinishCall(t: Spec.Entry, time: int)
      requires Valid() && calling && current == Some(t) && time == now
      modifies this
      ensures Valid() && View() == Spec.Next(old(View()), Spec.Finish)
      ensures calling && expired == old(expired) && now == old(now)
    {
      if t.period.Some? && t.id !in canceling {
        var next := time + t.period.value;
        Emplace(t.(when_ := next));
        active := active[t.id := next];
      }
      current := None;
    }

    /** The i-th expired timer's callback does callbacks[i]. The trace is the round, step by step. */
    method HandleTimerfd(callbacks: seq<seq<Act>>) returns (ghost trace: seq<Spec.Step>)
      requires Valid() && !calling
      modifies this
      ensures Valid() && !calling
      ensures Spec.IsRun(old(View()), trace) && Spec.After(old(View()), trace) == View()
    {
      var time := clock;
      var due := BeginRound();
      trace := [];
      Spec.Extend(old(View()), trace, Spec.Begin);
      trace := trace + [Spec.Begin];
      for i := 0 to |due|
        invariant Valid() && calling && current.None? && expired == due[i..] && now == time
        invariant Spec.IsRun(old(View()), trace) && Spec.After(old(View()), trace) == View()
      {
        trace := RunExpired(due[i], time, if i < |callbacks| then callbacks[i] else [], old(View()), trace);
      }
      Spec.Extend(old(View()), trace, Spec.End);
      trace := trace + [Spec.End];
      calling := false;
      if timers != [] {
        ResetTimerfd(timers[0].when_);
      }
    }

    /** One turn of the loop over the snapshot. */
    method RunExpired(t: Spec.Entry, time: int, acts: seq<Act>, ghost start: Spec.Timers, ghost before: seq<Spec.Step>)
      returns (ghost trace: seq<Spec.Step>)
      requires Valid() && calling && current.None? && expired != [] && expired[0] == t && now == time
      requires Spec.IsRun(start, before) && Spec.After(start, before) == View()
      modifies this
      ensures Valid() && calling && current.None? && expired == old(expired)[1..] && now == old(now)
      ensures Spec.IsRun(start, trace) && Spec.After(start, trace) == View()
    {
      Spec.Extend(start, before, Spec.Call);
      trace := before + [Spec.Call];
      BeginCall();
      ghost var body := Callback(acts);
      Spec.Append(start, trace, body);
      trace := trace + body;
      Spec.Extend(start, trace, Spec.Finish);
      trace := trace + [Spec.Finish];
      FinishCall(t, time);
    }
  }
}
