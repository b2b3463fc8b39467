/** When each timer is called: the deadline that was asked for, then one period after the reading of the clock in the
    round of the call before (src/net/EventLoop.cpp). */
module TimerDeadlines {
  import opened Prelude
  import opened TimerSpec
  import opened TimerTheorems

  // ---------- The clock, read off the run ----------

  /** The steady clock after a run that begins at time c. */
  function ClockOf(c: int, steps: seq<Step>): int
    decreases steps
  {
    if steps == [] then c else ClockOf(if steps[0].Tick? then steps[0].time else c, steps[1..])
  }

  /** The reading of the clock at the last beginning of a round; r if there is none. */
  function RoundOf(c: int, r: int, steps: seq<Step>): int
    decreases steps
  {
    if steps == [] then r
    else
      RoundOf(if steps[0].Tick? then steps[0].time else c, if steps[0].Begin? then c else r, steps[1..])
  }

  lemma {:induction false} RunClocks(s: Timers, steps: seq<Step>)
    requires IsRun(s, steps)
    ensures After(s, steps).clock == ClockOf(s.clock, steps)
    ensures After(s, steps).now == RoundOf(s.clock, s.now, steps)
    decreases steps
  {
    if steps != [] { RunClocks(Next(s, steps[0]), steps[1..]); }
  }

  /** A call is recorded under the time it is made at and the reading of the clock at the beginning of its round. */
  lemma CallIsStamped(steps: seq<Step>)
    requires IsRun(START, steps) && Enabled(After(START, steps), Call)
    ensures var s := After(START, steps); var e := s.expired[0];
      Next(s, Call).log == s.log + [Firing(e.id, e.when_, ClockOf(0, steps), RoundOf(0, 0, steps))]
  {
    RunClocks(START, steps);
  }

  /** A step that sets the timerfd sets it at least a microsecond ahead. */
  lemma AlarmIsAhead(s: Timers, step: Step)
    requires Enabled(s, step) && Next(s, step).alarm.Some? && Next(s, step).alarm != s.alarm
    ensures Next(s, step).alarm.value >= s.clock + LEAST_DELAY
  {
  }

  /** A round reads the timerfd: what is left of the alarm is still to come. */
  lemma RoundReadsAlarm(s: Timers)
    requires Enabled(s, Begin)
    ensures var t := Next(s, Begin); t.alarm.Some? ==> t.alarm == s.alarm && t.alarm.value > s.clock
  {
  }

  // ---------- The calls of one timer ----------

  /** The calls of this timer, in order. */
  function Mine(log: seq<Firing>, id: nat): seq<Firing> {
    if log == [] then []
    else Mine(log[..|log| - 1], id) + if log[|log| - 1].id == id then [log[|log| - 1]] else []
  }

  lemma MineSnoc(log: seq<Firing>, f: Firing, id: nat)
    ensures Mine(log + [f], id) == Mine(log, id) + if f.id == id then [f] else []
  {
    assert (log + [f])[..|log|] == log;
  }

  /** The deadline after these calls: when_ at first, then a period after the round of the last call. */
  function Deadline(calls: seq<Firing>, when_: int, period: Option<nat>): int
    requires calls != [] ==> period.Some?
  {
    if calls == [] then when_ else calls[|calls| - 1].round + period.value
  }

  /** Every call came in a round that began at or after its deadline, and a one-shot timer was called once. */
  ghost predicate OnSchedule(calls: seq<Firing>, when_: int, period: Option<nat>) {
    && (|calls| > 1 ==> period.Some?)
    && forall k :: 0 <= k < |calls| ==>
         && calls[k].deadline == (if k == 0 then when_ else calls[k - 1].round + period.value)
         && calls[k].deadline <= calls[k].round <= calls[k].at
  }

  /** An entry of the timer id carries the deadline of its next call. */
  ghost predicate EntryOk(e: Entry, id: nat, calls: seq<Firing>, when_: int, period: Option<nat>) {
    e.id == id ==> e.period == period && (calls != [] ==> period.Some?) && e.when_ == Deadline(calls, when_, period)
  }

  ghost predicate Kept(s: Timers, id: nat, calls: seq<Firing>, when_: int, period: Option<nat>) {
    && id in s.used && OnSchedule(calls, when_, period)
    && (forall e :: e in s.timers || e in s.expired ==> EntryOk(e, id, calls, when_, period))
    && (s.current.Some? && s.current.value.id == id ==>
          calls != [] && s.current.value.period == period && calls[|calls| - 1].round == s.now)
  }

  lemma AddKept(s: Timers, id': nat, w: int, p: Option<nat>, id: nat, calls: seq<Firing>, when_: int,
                period: Option<nat>)
    requires Kept(s, id, calls, when_, period) && id' != id
    ensures Kept(AddTimer(s, id', w, p), id, calls, when_, period)
  {
    forall e | e in AddTimer(s, id', w, p).timers ensures EntryOk(e, id, calls, when_, period) {
      InsertMembers(s.timers, Entry(w, id', p), e);
    }
  }

  lemma CancelKept(s: Timers, id': nat, id: nat, calls: seq<Firing>, when_: int, period: Option<nat>)
    requires Kept(s, id, calls, when_, period)
    ensures Kept(CancelTimer(s, id'), id, calls, when_, period)
  {
    forall e | e in CancelTimer(s, id').timers ensures EntryOk(e, id, calls, when_, period) {
      if id' in s.active { RemoveOnly(s.timers, s.active[id'], id', e); }
    }
  }

  lemma BeginKept(s: Timers, id: nat, calls: seq<Firing>, when_: int, period: Option<nat>)
    requires Kept(s, id, calls, when_, period) && s.current.None?
    ensures Kept(BeginRound(s), id, calls, when_, period)
  {
    var t := BeginRound(s);
    SplitJoin(s.timers, Due(s.timers, s.clock));
    forall e | e in t.timers || e in t.expired ensures EntryOk(e, id, calls, when_, period) { assert e in s.timers; }
  }

  /** A call of another timer. */
  lemma OtherCallKept(s: Timers, id: nat, calls: seq<Firing>, when_: int, period: Option<nat>)
    requires Kept(s, id, calls, when_, period) && s.expired != [] && s.expired[0].id != id
    ensures Kept(CallNext(s), id, calls, when_, period)
  {
    forall e | e in s.expired[1..] ensures EntryOk(e, id, calls, when_, period) { assert e in s.expired; }
  }

  lemma NoOtherEntry(s: Timers, e: Entry)
    requires Inv(s) && Enabled(s, Call) && (e in s.timers || e in s.expired[1..])
    ensures e.id != s.expired[0].id
  {
    if e in s.timers {
      var i :| 0 <= i < |s.timers| && s.timers[i] == e;
      assert s.timers[i].id in Ids(s.timers);
    } else {
      TailIds(s);
      var i :| 0 <= i < |s.expired[1..]| && s.expired[1..][i] == e;
      assert s.expired[1..][i].id in Ids(s.expired[1..]);
    }
  }

  lemma OneMoreCall(calls: seq<Firing>, f: Firing, when_: int, period: Option<nat>)
    requires OnSchedule(calls, when_, period) && (calls != [] ==> period.Some?)
    requires f.deadline == Deadline(calls, when_, period) && f.deadline <= f.round <= f.at
    ensures OnSchedule(calls + [f], when_, period)
  {
  }

  /** A call of the timer itself. */
  lemma OwnCallKept(s: Timers, id: nat, calls: seq<Firing>, when_: int, period: Option<nat>)
    requires Inv(s) && Enabled(s, Call) && Kept(s, id, calls, when_, period) && s.expired[0].id == id
    ensures var e := s.expired[0];
      Kept(CallNext(s), id, calls + [Firing(id, e.when_, s.clock, s.now)], when_, period)
  {
    var e := s.expired[0];
    assert e in s.expired && e == s.batch[|s.batch| - |s.expired|];
    assert EntryOk(e, id, calls, when_, period);
    OneMoreCall(calls, Firing(id, e.when_, s.clock, s.now), when_, period);
    var t := CallNext(s);
    forall x | x in t.timers || x in t.expired ensures x.id != id { NoOtherEntry(s, x); }
    assert id in s.used;
  }

  lemma FinishKept(s: Timers, id: nat, calls: seq<Firing>, when_: int, period: Option<nat>)
    requires Kept(s, id, calls, when_, period) && s.current.Some?
    ensures Kept(FinishCall(s), id, calls, when_, period)
  {
    var c, t := s.current.value, FinishCall(s);
    if t.timers != s.timers {
      var renewed := c.(when_ := s.now + c.period.value);
      assert EntryOk(renewed, id, calls, when_, period);
      forall e | e in t.timers ensures EntryOk(e, id, calls, when_, period) { InsertMembers(s.timers, renewed, e); }
    }
  }

  lemma StepKept(s: Timers, step: Step, id: nat, before: seq<Firing>, when_: int, period: Option<nat>)
    requires Inv(s) && Enabled(s, step) && Kept(s, id, Mine(before, id), when_, period)
    ensures var t := Next(s, step);
      t.log[..|s.log|] == s.log && Kept(t, id, Mine(before + t.log[|s.log|..], id), when_, period)
  {
    var t, calls := Next(s, step), Mine(before, id);
    if step.Call? {
      var f := Firing(s.expired[0].id, s.expired[0].when_, s.clock, s.now);
      AppendPrefix(s.log, [f]);
      MineSnoc(before, f, id);
      if f.id == id {
        OwnCallKept(s, id, calls, when_, period);
      } else {
        OtherCallKept(s, id, calls, when_, period);
        assert calls + [] == calls;
      }
    } else {
      assert t.log == s.log && before + t.log[|s.log|..] == before;
      match step
      case Add(id', w, p) => AddKept(s, id', w, p, id, calls, when_, period);
      case Cancel(id') => CancelKept(s, id', id, calls, when_, period);
      case Begin => BeginKept(s, id, calls, when_, period);
      case Finish => FinishKept(s, id, calls, when_, period);
      case _ =>
    }
  }

  lemma {:induction false} RunKept(s: Timers, steps: seq<Step>, id: nat, before: seq<Firing>, when_: int,
                                   period: Option<nat>)
    requires Inv(s) && IsRun(s, steps) && Kept(s, id, Mine(before, id), when_, period)
    ensures var t := After(s, steps);
      && Inv(t) && |s.log| <= |t.log| && t.log[..|s.log|] == s.log
      && Kept(t, id, Mine(before + t.log[|s.log|..], id), when_, period)
    decreases steps
  {
    if steps == [] {
      assert before + s.log[|s.log|..] == before;
    } else {
      var a, t := Next(s, steps[0]), After(s, steps);
      var new_ := a.log[|s.log|..];
      StepKept(s, steps[0], id, before, when_, period);
      StepKeeps(s, steps[0]);
      RunKept(a, steps[1..], id, before + new_, when_, period);
      LogsJoin(before, s.log, a.log, t.log);
    }
  }

  lemma LogsJoin(before: seq<Firing>, a: seq<Firing>, b: seq<Firing>, c: seq<Firing>)
    requires |a| <= |b| <= |c| && b[..|a|] == a && c[..|b|] == b
    ensures c[..|a|] == a && before + b[|a|..] + c[|b|..] == before + c[|a|..]
  {
    assert c[|a|..] == b[|a|..] + c[|b|..];
    Associate(before, b[|a|..], c[|b|..]);
  }

  lemma AddedIsKept(s: Timers, id: nat, when_: int, period: Option<nat>)
    requires Inv(s) && Enabled(s, Add(id, when_, period))
    ensures Kept(Next(s, Add(id, when_, period)), id, [], when_, period)
  {
    var t := Next(s, Add(id, when_, period));
    forall e | e in t.timers || e in t.expired ensures EntryOk(e, id, [], when_, period) {
      InsertMembers(s.timers, Entry(when_, id, period), e);
      if e in s.timers {
        var i :| 0 <= i < |s.timers| && s.timers[i] == e;
        assert s.timers[i].id in Ids(s.timers);
      } else if e in s.expired {
        ExpiredWereUsed(s);
      }
    }
    if s.calling { ExpiredWereUsed(s); }
  }

  // ---------- Main result ----------

  /** Where the timer id still stands, it stands for a call that is to come at its next deadline. */
  ghost predicate StandsFor(t: Timers, id: nat, calls: seq<Firing>, when_: int, period: Option<nat>) {
    && (calls != [] && period.None? ==> id !in t.active)
    && (forall e :: (e in t.timers || e in t.expired) && e.id == id ==>
          (calls != [] ==> period.Some?) && e == Entry(Deadline(calls, when_, period), id, period))
    && (id in t.active ==> (calls != [] ==> period.Some?) && t.active[id] == Deadline(calls, when_, period))
  }

  lemma KeptStands(t: Timers, id: nat, calls: seq<Firing>, when_: int, period: Option<nat>)
    requires Agree(t.timers, t.active) && Kept(t, id, calls, when_, period)
    ensures StandsFor(t, id, calls, when_, period)
  {
    if id in t.active {
      assert EntryOk(t.timers[IndexOf(t.timers, id)], id, calls, when_, period);
    }
  }

  lemma ScheduleFrom(a: Timers, id: nat, when_: int, period: Option<nat>, steps: seq<Step>)
    requires Inv(a) && Kept(a, id, [], when_, period) && IsRun(a, steps)
    ensures var t := After(a, steps);
      && |a.log| <= |t.log|
      && var calls := Mine(t.log[|a.log|..], id);
         OnSchedule(calls, when_, period) && StandsFor(t, id, calls, when_, period)
  {
    RunKept(a, steps, id, [], when_, period);
    var t := After(a, steps);
    assert [] + t.log[|a.log|..] == t.log[|a.log|..];
    KeptStands(t, id, Mine(t.log[|a.log|..], id), when_, period);
  }

  /** Over any run after a timer was added: its first call carries the deadline that was asked for, each later one the
      reading of the clock in the round of the call before plus the period, none comes in a round that begins before its
      deadline, and where it is still scheduled it stands under the deadline of its next call. */
  lemma EveryCallOnSchedule(s: Timers, id: nat, when_: int, period: Option<nat>, steps: seq<Step>)
    requires Inv(s) && Enabled(s, Add(id, when_, period)) && IsRun(Next(s, Add(id, when_, period)), steps)
    ensures var t := After(Next(s, Add(id, when_, period)), steps);
      && |s.log| <= |t.log|
      && var calls := Mine(t.log[|s.log|..], id);
         OnSchedule(calls, when_, period) && StandsFor(t, id, calls, when_, period)
  {
    AddKeeps(s, id, when_, period);
    AddedIsKept(s, id, when_, period);
    ScheduleFrom(Next(s, Add(id, when_, period)), id, when_, period, steps);
  }
}
