/** What the proxy keeps over every run: nothing lost or reordered, no pause that is never lifted,
    a bounded backlog, and a half-close only after the last byte. */
module ProxyTheorems {
  import opened Prelude
  import B = BufferSpec
  import C = ChannelSpec
  import T = TcpConnectionSpec
  import opened ProxySpec

  // The most the downstream output buffer ever holds.
  const BACKLOG_MAX: nat := MARK - 1 + B.DRAINED_MAX

  /** An open connection under flow control, between two reads. */
  ghost predicate Good(c: T.Conn) {
    && C.Live(c.chan) && T.Armed(c) && B.Drained(c.input)
    && c.highCallback && c.completeCallback && c.mark == MARK
  }

  predicate Queued(s: Session, f: Functor) {
    f in s.batch || f in s.pending
  }

  ghost predicate UpToDown(s: Session) {
    && (s.down.dropped == 0 ==> s.up.received == s.down.sent + s.down.output)
    && |s.up.received| == |s.down.sent| + |s.down.output| + s.down.dropped
  }

  ghost predicate DownToUp(s: Session) {
    && (s.up.dropped == 0 ==> s.down.received == s.up.sent + s.up.output + s.pendingUp)
    && |s.down.received| == |s.up.sent| + |s.up.output| + s.up.dropped + |s.pendingUp|
  }

  // The three ages of a session that is not torn down: no upstream yet, both sides bridged, upstream gone.
  ghost predicate Waiting(s: Session) {
    && s.up == T.NEW && !s.upRef && !s.upReady && !s.upPaused
    && s.down.state == T.Connected && !s.down.halfClosed && s.down.output == "" && !s.downPaused
  }

  ghost predicate Bridged(s: Session) {
    && s.upRef && s.upReady && s.pendingUp == ""
    && Good(s.up) && s.up.state == T.Connected
    && s.down.state == T.Connected && !s.down.halfClosed
    && (s.upPaused <==> !s.up.IsReading())
    && (!s.upPaused ==> |s.down.output| < MARK)
    && (s.upPaused ==> s.down.output != "" || Queued(s, WriteComplete(Down)))
    && (s.downPaused ==> s.up.output != "" || Queued(s, WriteComplete(Up)))
  }

  ghost predicate Ended(s: Session) {
    && !s.upRef && !s.upReady
    && (s.up.state == T.Disconnecting || s.up.state == T.Disconnected)
    && s.up.chan.events == C.NOTHING && B.Drained(s.up.input) && s.up.completeCallback
    && s.down.state == T.Disconnecting
    && (s.down.halfClosed <==> s.down.output == "")
    && (s.downPaused ==> s.up.output != "" || Queued(s, WriteComplete(Up)))
  }

  // No mask asks for EPOLLPRI or EPOLLRDHUP.
  predicate Asked(e: C.Revents) {
    !e.pri && !e.rdhup
  }

  ghost predicate EventsOk(s: Session) {
    && (s.upEvent.Some? ==>
          s.phase == Handling && s.up.state != T.Connecting && Asked(s.upEvent.value)
          && (s.upEvent.value.input ==> s.up.IsReading()))
    && (s.downEvent.Some? ==> s.phase == Handling && Asked(s.downEvent.value))
    && (s.connEvent ==> s.phase == Handling && s.up.state == T.Connecting)
    && (s.batch != [] ==> s.phase == Running)
    && (Queued(s, DestroyUp) ==> s.up.state == T.Disconnecting || s.up.state == T.Disconnected)
    && (Ended(s) ==> s.up.chan.interest in {None, Some(C.NOTHING)})
  }

  ghost predicate Body(s: Session) {
    && Good(s.down)
    && (s.downPaused <==> !s.down.IsReading())
    && (Waiting(s) || Bridged(s) || Ended(s))
    && UpToDown(s) && DownToUp(s)
    && |s.down.output| <= BACKLOG_MAX
  }

  ghost predicate Inv(s: Session) {
    !s.torn ==> Body(s) && EventsOk(s)
  }

  // ---------- What a send does to one connection ----------

  ghost predicate Flowing(c: T.Conn) {
    && C.Live(c.chan) && T.Armed(c)
    && c.highCallback && c.completeCallback && c.mark == MARK
    && c.state != T.Disconnected
  }

  ghost predicate SendEffect(c: T.Conn, data: Bytes, o: T.Outcome) {
    var d := o.conn;
    && Flowing(d) && d.IsReading() == c.IsReading()
    && d.state == c.state && d.halfClosed == c.halfClosed && d.input == c.input && d.received == c.received
    && |d.output| <= |c.output| + |data|
    && (o.complete ==> d.output == "")
    && (o.high <==> |c.output| < MARK <= |d.output|)
    && d.dropped >= c.dropped
    && (d.dropped == c.dropped ==> d.sent + d.output == c.sent + c.output + data)
    && |d.sent| + |d.output| + d.dropped == |c.sent| + |c.output| + c.dropped + |data|
    && (c.output != "" ==> d.output != "")
  }

  lemma SendHasEffect(c: T.Conn, data: Bytes, w: T.WriteResult)
    requires Flowing(c) && data != ""
    ensures SendEffect(c, data, T.SendInLoop(c, data, w))
  {
    T.SendConserves(c, data, w);
    T.SendKeepsArmed(c, data, w);
    T.HighWaterIsTheCrossing(c, data, w);
  }

  /** What a step of one connection leaves alone in the loop. */
  ghost predicate SameLoop(s: Session, t: Session) {
    && t.phase == s.phase && t.batch == s.batch && t.torn == s.torn
    && t.upEvent == s.upEvent && t.downEvent == s.downEvent && t.connEvent == s.connEvent
    && s.pending <= t.pending && (DestroyUp in t.pending ==> DestroyUp in s.pending)
  }

  // ---------- Each handler keeps the invariant ----------

  /** Forwarding bytes downstream, whatever the kernel took of them. */
  lemma ForwardDownKeeps(s: Session, data: Bytes, u: T.Conn, o: T.Outcome)
    requires !s.torn && Inv(s) && s.upEvent.None? && Bridged(s) && s.up.IsReading()
    requires |data| <= B.DRAINED_MAX && SendEffect(s.down, data, o)
    requires B.Drained(u.input)
    requires u == s.up.(input := u.input, received := s.up.received + data)
    ensures var t := AfterSendDown(s.(up := u), o); Inv(t) && Bridged(t) && SameLoop(s, t)
  {
    var t := AfterSendDown(s.(up := u), o);
    assert SameLoop(s, t);
    if t.down.dropped == 0 {
      assert s.up.received + data == s.down.sent + s.down.output + data;
    }
  }

  function EmptiedUp(s: Session): Session {
    s.(up := s.up.(input := B.RetrieveAll(s.up.input)))
  }

  function EmptiedDown(s: Session): Session {
    s.(down := s.down.(input := B.RetrieveAll(s.down.input)))
  }

  lemma PauseKeepsInput(c: T.Conn, v: B.ValidView)
    ensures T.DisableReading(c).(input := v) == T.DisableReading(c.(input := v))
  {
  }

  lemma EmptiedHighWater(s: Session)
    ensures EmptiedUp(DownHighWater(s)) == DownHighWater(EmptiedUp(s))
    ensures EmptiedDown(UpHighWater(s)) == UpHighWater(EmptiedDown(s))
  {
    PauseKeepsInput(s.up, B.RetrieveAll(s.up.input));
    PauseKeepsInput(s.down, B.RetrieveAll(s.down.input));
  }

  lemma EmptiedQueue(s: Session, complete: bool, side: Side)
    ensures EmptiedUp(Queue(s, complete, side)) == Queue(EmptiedUp(s), complete, side)
    ensures EmptiedDown(Queue(s, complete, side)) == Queue(EmptiedDown(s), complete, side)
  {
  }

  lemma EmptiedAfterSendDown(s: Session, o: T.Outcome)
    ensures EmptiedUp(AfterSendDown(s, o)) == AfterSendDown(EmptiedUp(s), o)
  {
    EmptiedQueue(s.(down := o.conn), o.complete, Down);
    EmptiedHighWater(Queue(s.(down := o.conn), o.complete, Down));
  }

  lemma EmptiedAfterSendUp(s: Session, o: T.Outcome)
    ensures EmptiedDown(AfterSendUp(s, o)) == AfterSendUp(EmptiedDown(s), o)
  {
    EmptiedQueue(s.(up := o.conn), o.complete, Up);
    EmptiedHighWater(Queue(s.(up := o.conn), o.complete, Up));
  }

  /** What was read into one connection is handed to the other and leaves the input buffer. */
  lemma OnUpstreamForwards(s: Session, w: T.WriteResult)
    requires !s.torn && s.up.input.content != ""
    ensures OnUpstreamData(s, w) == AfterSendDown(EmptiedUp(s), T.SendInLoop(s.down, s.up.input.content, w))
  {
    EmptiedAfterSendDown(s, T.SendInLoop(s.down, s.up.input.content, w));
  }

  lemma OnDownstreamForwards(s: Session, w: T.WriteResult)
    requires !s.torn && s.down.input.content != "" && s.upReady && s.upRef
    ensures OnDownstreamData(s, w) == AfterSendUp(EmptiedDown(s), T.SendInLoop(s.up, s.down.input.content, w))
  {
    EmptiedAfterSendUp(s, T.SendInLoop(s.up, s.down.input.content, w));
  }

  /** One read of the upstream, forwarded downstream. */
  lemma ReadUpOnceKeeps(s: Session, r: Read)
    requires !s.torn && Inv(s) && s.upEvent.None? && Bridged(s) && s.up.IsReading()
    ensures var t := ReadUpOnce(s, r); Inv(t) && Bridged(t) && SameLoop(s, t)
  {
    var c := T.Receive(s.up, r.offer);
    B.ReadIntoDrained(s.up.input, r.offer);
    SendHasEffect(s.down, c.input.content, r.w);
    OnUpstreamForwards(s.(up := c), r.w);
    ForwardDownKeeps(s, c.input.content, c.(input := B.RetrieveAll(c.input)),
                     T.SendInLoop(s.down, c.input.content, r.w));
  }

  lemma {:induction false} ReadUpKeeps(s: Session, script: seq<Read>, closed: bool)
    requires !s.torn && Inv(s) && s.upEvent.None? && s.phase == Handling && Bridged(s) && s.up.IsReading()
    ensures var t := ReadUp(s, script, closed); !t.torn && Inv(t) && t.downEvent == s.downEvent
    decreases script
  {
    if script == [] {
      if closed { CloseUpKeeps(s); }
    } else {
      var t := ReadUpOnce(s, script[0]);
      ReadUpOnceKeeps(s, script[0]);
      if t.up.IsReading() { ReadUpKeeps(t, script[1..], closed); }
    }
  }

  lemma CloseUpKeeps(s: Session)
    requires !s.torn && Inv(s) && s.upEvent.None? && s.phase == Handling
    requires !Waiting(s)
    ensures var t := CloseUp(s); !t.torn && Inv(t) && Ended(t) && t.upEvent.None? && t.downEvent == s.downEvent
  {
  }

  // ---------- Writes ----------

  ghost predicate WriteEffect(c: T.Conn, o: T.Outcome) {
    var d := o.conn;
    && Good(d) && d.IsReading() == c.IsReading()
    && d.state == c.state && d.received == c.received && d.dropped == c.dropped
    && d.sent + d.output == c.sent + c.output
    && |d.output| <= |c.output|
    && (o.complete <==> c.output != "" && d.output == "")
    && (d.halfClosed <==> c.halfClosed || (c.output != "" && d.output == "" && c.state == T.Disconnecting))
  }

  lemma WriteHasEffect(c: T.Conn, w: T.WriteResult)
    requires Good(c)
    ensures WriteEffect(c, T.HandleWrite(c, w))
  {
    T.WriteConserves(c, w);
    T.WriteKeepsArmed(c, w);
  }

  lemma AfterWriteDownKeeps(s: Session, o: T.Outcome)
    requires !s.torn && Inv(s) && WriteEffect(s.down, o)
    ensures var t := Queue(s.(down := o.conn), o.complete, Down); Inv(t) && t.upEvent == s.upEvent
  {
    var t := Queue(s.(down := o.conn), o.complete, Down);
    assert |o.conn.sent + o.conn.output| == |s.down.sent + s.down.output|;
    assert SameLoop(s, t);
  }

  lemma AfterWriteUpKeeps(s: Session, o: T.Outcome)
    requires !s.torn && Inv(s) && Bridged(s) && WriteEffect(s.up, o)
    ensures Inv(Queue(s.(up := o.conn), o.complete, Up))
  {
    var t := Queue(s.(up := o.conn), o.complete, Up);
    assert |o.conn.sent + o.conn.output| == |s.up.sent + s.up.output|;
    assert SameLoop(s, t);
  }

  lemma WriteUpKeeps(s: Session, w: T.WriteResult)
    requires !s.torn && Inv(s)
    ensures Inv(WriteUp(s, w)) && !WriteUp(s, w).torn
  {
    if Bridged(s) {
      WriteHasEffect(s.up, w);
      AfterWriteUpKeeps(s, T.HandleWrite(s.up, w));
    } else {
      assert !s.up.IsWriting();
    }
  }

  lemma WriteDownKeeps(s: Session, w: T.WriteResult)
    requires !s.torn && Inv(s)
    ensures Inv(WriteDown(s, w))
  {
    WriteHasEffect(s.down, w);
    AfterWriteDownKeeps(s, T.HandleWrite(s.down, w));
  }

  // ---------- The other direction ----------

  lemma ForwardUpKeeps(s: Session, data: Bytes, d: T.Conn, o: T.Outcome)
    requires !s.torn && Inv(s) && Bridged(s)
    requires SendEffect(s.up, data, o) && B.Drained(s.up.input) && B.Drained(d.input)
    requires d == s.down.(input := d.input, received := s.down.received + data)
    ensures var t := AfterSendUp(s.(down := d), o); Inv(t) && Bridged(t) && SameLoop(s, t)
  {
    var t := AfterSendUp(s.(down := d), o);
    if t.up.dropped == 0 {
      assert s.down.received + data == s.up.sent + s.up.output + data;
    }
    assert SameLoop(s, t);
  }

  lemma HoldUpKeeps(s: Session, data: Bytes, d: T.Conn)
    requires !s.torn && Inv(s) && !Bridged(s)
    requires B.Drained(d.input)
    requires d == s.down.(input := d.input, received := s.down.received + data)
    ensures Inv(s.(down := d, pendingUp := s.pendingUp + data))
  {
    assert s.up.sent + s.up.output + s.pendingUp + data == s.up.sent + s.up.output + (s.pendingUp + data);
  }

  /** One read of a client whose backend is connected. */
  lemma BridgedReadDownKeeps(s: Session, r: Read)
    requires !s.torn && Inv(s) && Bridged(s)
    ensures var t := ReadDownOnce(s, r); Inv(t) && SameLoop(s, t)
  {
    var c := T.Receive(s.down, r.offer);
    B.ReadIntoDrained(s.down.input, r.offer);
    SendHasEffect(s.up, c.input.content, r.w);
    OnDownstreamForwards(s.(down := c), r.w);
    ForwardUpKeeps(s, c.input.content, c.(input := B.RetrieveAll(c.input)),
                   T.SendInLoop(s.up, c.input.content, r.w));
  }

  lemma ReadDownOnceKeeps(s: Session, r: Read)
    requires !s.torn && Inv(s)
    ensures var t := ReadDownOnce(s, r); Inv(t) && SameLoop(s, t)
  {
    if Bridged(s) {
      BridgedReadDownKeeps(s, r);
    } else {
      var c := T.Receive(s.down, r.offer);
      B.ReadIntoDrained(s.down.input, r.offer);
      var d := c.(input := B.RetrieveAll(c.input));
      HoldUpKeeps(s, c.input.content, d);
      assert ReadDownOnce(s, r) == s.(down := d, pendingUp := s.pendingUp + c.input.content);
    }
  }

  lemma {:induction false} ReadDownKeeps(s: Session, script: seq<Read>, closed: bool)
    requires !s.torn && Inv(s)
    ensures Inv(ReadDown(s, script, closed))
    decreases script
  {
    if script != [] {
      var t := ReadDownOnce(s, script[0]);
      ReadDownOnceKeeps(s, script[0]);
      if t.down.IsReading() { ReadDownKeeps(t, script[1..], closed); }
    }
  }

  // ---------- The upstream connects; functors run ----------

  /** pending_up_ is flushed into the new connection. */
  lemma FlushKeeps(s: Session, o: T.Outcome)
    requires !s.torn && Inv(s) && Waiting(s) && !s.connEvent
    requires SendEffect(OPENED, s.pendingUp, o)
    ensures Inv(AfterSendUp(s.(up := OPENED, upRef := true, upReady := true), o).(pendingUp := ""))
  {
    var t := AfterSendUp(s.(up := OPENED, upRef := true, upReady := true), o).(pendingUp := "");
    assert s.down.received == s.pendingUp by { assert "" + "" + s.pendingUp == s.pendingUp; }
    assert OPENED.sent + OPENED.output + s.pendingUp == s.pendingUp;
    assert t.up.sent + t.up.output + "" == t.up.sent + t.up.output;
    assert SameLoop(s, t);
    assert Bridged(t);
  }

  lemma ConnectKeeps(s: Session, w: T.WriteResult)
    requires !s.torn && Inv(s) && Waiting(s) && !s.connEvent
    ensures Inv(UpstreamConnected(s, w))
  {
    if s.pendingUp == "" {
      var t := UpstreamConnected(s, w);
      assert Bridged(t) && SameLoop(s, t);
    } else {
      SendHasEffect(OPENED, s.pendingUp, w);
      FlushKeeps(s, T.SendInLoop(OPENED, s.pendingUp, w));
    }
  }

  lemma DownCompleteKeeps(s: Session, rest: seq<Functor>)
    requires !s.torn && Inv(s) && s.phase == Running && s.batch == [WriteComplete(Down)] + rest
    ensures Inv(RunFunctor(s.(batch := rest), WriteComplete(Down)))
  {
    assert forall g :: g in s.batch <==> g == WriteComplete(Down) || g in rest;
    var t := RunFunctor(s.(batch := rest), WriteComplete(Down));
    assert Bridged(s) ==> Bridged(t);
    assert Waiting(s) ==> Waiting(t);
  }

  lemma UpCompleteKeeps(s: Session, rest: seq<Functor>)
    requires !s.torn && Inv(s) && s.phase == Running && s.batch == [WriteComplete(Up)] + rest
    ensures Inv(RunFunctor(s.(batch := rest), WriteComplete(Up)))
  {
    assert forall g :: g in s.batch <==> g == WriteComplete(Up) || g in rest;
    var t := RunFunctor(s.(batch := rest), WriteComplete(Up));
    assert Bridged(s) ==> Bridged(t);
    assert Waiting(s) ==> Waiting(t);
  }

  lemma DestroyKeeps(s: Session, rest: seq<Functor>)
    requires !s.torn && Inv(s) && s.phase == Running && s.batch == [DestroyUp] + rest
    ensures Inv(RunFunctor(s.(batch := rest), DestroyUp))
  {
    assert forall g :: g in s.batch <==> g == DestroyUp || g in rest;
    assert Ended(s);
    assert Ended(RunFunctor(s.(batch := rest), DestroyUp));
  }

  lemma HandleUpKeeps(s: Session, e: C.Revents, script: seq<Read>, closed: bool, w: T.WriteResult)
    requires !s.torn && Inv(s) && s.upEvent.None? && s.phase == Handling && !Waiting(s)
    requires Asked(e) && (e.input ==> s.up.IsReading())
    ensures Inv(HandleUp(s, e, script, closed, w))
  {
    var a := if e.hup && !e.input then CloseUp(s) else s;
    if e.hup && !e.input { CloseUpKeeps(s); }
    var b := if e.input then ReadUp(a, script, closed) else a;
    if e.input {
      assert Bridged(a);
      ReadUpKeeps(a, script, closed);
    }
    if e.output { WriteUpKeeps(b, w); }
  }

  lemma HandleDownKeeps(s: Session, e: C.Revents, script: seq<Read>, closed: bool, w: T.WriteResult)
    requires !s.torn && Inv(s) && Asked(e)
    ensures Inv(HandleDown(s, e, script, closed, w))
  {
    var a := if e.hup && !e.input then CloseDown(s) else s;
    var b := if e.input then ReadDown(a, script, closed) else a;
    if e.input { ReadDownKeeps(a, script, closed); }
    if e.output && !b.torn { WriteDownKeeps(b, w); }
  }

  lemma NextFunctorKeeps(s: Session)
    requires Inv(s) && Enabled(s, NextFunctor)
    ensures Inv(Next(s, NextFunctor))
  {
    assert s.batch == [s.batch[0]] + s.batch[1..];
    match s.batch[0] {
      case WriteComplete(Down) => DownCompleteKeeps(s, s.batch[1..]);
      case WriteComplete(Up) => UpCompleteKeeps(s, s.batch[1..]);
      case DestroyUp => DestroyKeeps(s, s.batch[1..]);
    }
  }

  lemma PollKeeps(s: Session, step: Step)
    requires Inv(s) && Enabled(s, step) && (step.Poll? || step.SwapFunctors? || step.EndFunctors?)
    ensures Inv(Next(s, step))
  {
    if step.Poll? && step.upEvent.Some? && step.upEvent.value.input {
      assert s.up.chan.interest.value.input;
    }
    assert Waiting(s) ==> Waiting(Next(s, step));
    assert Bridged(s) ==> Bridged(Next(s, step));
  }

  lemma StepKeeps(s: Session, step: Step)
    requires Inv(s) && Enabled(s, step)
    ensures Inv(Next(s, step))
  {
    match step
    case UpEvent(script, closed, w) =>
      HandleUpKeeps(s.(upEvent := None), s.upEvent.value, script, closed, w);
    case DownEvent(script, closed, w) =>
      HandleDownKeeps(s.(downEvent := None), s.downEvent.value, script, closed, w);
    case ConnectEvent(w) =>
      ConnectKeeps(s.(connEvent := false), w);
    case NextFunctor =>
      NextFunctorKeeps(s);
    case _ =>
      PollKeeps(s, step);
  }

  lemma {:induction false} RunKeeps(s: Session, steps: seq<Step>)
    requires Inv(s) && IsRun(s, steps)
    ensures Inv(After(s, steps))
    decreases steps
  {
    if steps != [] {
      StepKeeps(s, steps[0]);
      RunKeeps(Next(s, steps[0]), steps[1..]);
    }
  }

  lemma StartHolds()
    ensures Inv(START)
  {
    assert Waiting(START);
  }

  // ---------- What every reachable state offers ----------

  ghost predicate Reachable(s: Session) {
    exists steps :: IsRun(START, steps) && After(START, steps) == s
  }

  lemma ReachableHolds(s: Session)
    requires Reachable(s)
    ensures Inv(s)
  {
    var steps :| IsRun(START, steps) && After(START, steps) == s;
    StartHolds();
    RunKeeps(START, steps);
  }

  /** No stuck pause. While both sides are open, a side that is not read has its flag set, and on the other
      side either bytes wait with EPOLLOUT armed in the kernel, or a write-complete functor is queued. */
  lemma NoStuckPause(s: Session)
    requires Reachable(s) && !s.torn && s.upRef
    ensures s.upPaused <==> !s.up.IsReading()
    ensures s.downPaused <==> !s.down.IsReading()
    ensures s.up.chan.interest == Some(s.up.chan.events) && s.down.chan.interest == Some(s.down.chan.events)
    ensures s.upPaused ==>
      (s.down.output != "" && s.down.chan.interest.value.output) || Queued(s, WriteComplete(Down))
    ensures s.downPaused ==>
      (s.up.output != "" && s.up.chan.interest.value.output) || Queued(s, WriteComplete(Up))
  {
    ReachableHolds(s);
  }

  /** Upstream to downstream: the bytes read are the bytes the kernel took followed by the bytes that wait,
      in order, unless some were dropped. Which runs drop bytes is the subject of ProxyFaults. */
  lemma UpstreamBytesUnlessDropped(s: Session)
    requires Reachable(s) && !s.torn
    ensures s.up.received == s.down.sent + s.down.output <==> s.down.dropped == 0
  {
    ReachableHolds(s);
  }

  /** Downstream to upstream, with what is held until the upstream is connected. */
  lemma DownstreamBytesUnlessDropped(s: Session)
    requires Reachable(s) && !s.torn
    ensures s.down.received == s.up.sent + s.up.output + s.pendingUp <==> s.up.dropped == 0
    ensures s.upRef ==> s.pendingUp == ""
  {
    ReachableHolds(s);
  }

  /** The downstream backlog is bounded, and stays below the mark while the upstream is being read. */
  lemma BacklogBounded(s: Session)
    requires Reachable(s) && !s.torn
    ensures |s.down.output| <= MARK - 1 + 131071
    ensures s.upRef && s.up.IsReading() ==> |s.down.output| < MARK
    ensures s.up.input.size <= 131071 && s.up.input.content == ""
  {
    ReachableHolds(s);
  }

  /** The write side of the downstream is shut exactly when the upstream is gone and everything is written. */
  lemma HalfCloseAfterLastByte(s: Session)
    requires Reachable(s) && !s.torn
    ensures s.down.halfClosed <==>
      (s.up.state == T.Disconnecting || s.up.state == T.Disconnected) && s.down.output == ""
    ensures s.down.halfClosed && s.down.dropped == 0 ==> s.down.sent == s.up.received
  {
    ReachableHolds(s);
    assert s.down.sent + "" == s.down.sent;
  }

  // ---------- Pauses are lifted only on an empty backlog, and can always be lifted ----------

  lemma {:induction false} ReadDownLeavesPause(s: Session, script: seq<Read>, closed: bool)
    ensures var t := ReadDown(s, script, closed); t.torn || t.upPaused == s.upPaused
    decreases script
  {
    if script != [] {
      var t := ReadDownOnce(s, script[0]);
      assert t.upPaused == s.upPaused;
      if t.down.IsReading() { ReadDownLeavesPause(t, script[1..], closed); }
    }
  }

  lemma HandleDownLeavesPause(s: Session, e: C.Revents, script: seq<Read>, closed: bool, w: T.WriteResult)
    ensures var t := HandleDown(s, e, script, closed, w); t.torn || t.upPaused == s.upPaused
  {
    var a := if e.hup && !e.input then CloseDown(s) else s;
    var b := if e.Readable() then ReadDown(a, script, closed) else a;
    ReadDownLeavesPause(a, script, closed);
    if a.torn { ReadDownStaysTorn(a, script, closed); }
    assert b.torn || b.upPaused == s.upPaused;
  }

  /** A pause of the backend ends only in a functor that finds the backlog toward the client empty. */
  lemma ResumeOnlyWhenDrained(s: Session, step: Step)
    requires Reachable(s) && Enabled(s, step) && s.upRef && s.upPaused
    ensures var t := Next(s, step);
      !t.torn && t.upRef && !t.upPaused ==> step.NextFunctor? && s.down.output == ""
  {
    ReachableHolds(s);
    match step
    case DownEvent(script, closed, w) =>
      HandleDownLeavesPause(s.(downEvent := None), s.downEvent.value, script, closed, w);
    case _ =>
  }

  lemma {:induction false} ReadDownKeepsPause(s: Session, script: seq<Read>, closed: bool)
    requires s.downPaused
    ensures var t := ReadDown(s, script, closed); t.torn || t.downPaused
    decreases script
  {
    if script != [] {
      var t := ReadDownOnce(s, script[0]);
      assert t.downPaused;
      if t.down.IsReading() { ReadDownKeepsPause(t, script[1..], closed); }
    }
  }

  lemma SendDownKeepsDownPause(s: Session, o: T.Outcome)
    ensures AfterSendDown(s, o).downPaused == s.downPaused
  {
  }

  lemma ReadUpOnceKeepsDownPause(s: Session, r: Read)
    ensures ReadUpOnce(s, r).downPaused == s.downPaused
  {
    var t := s.(up := T.Receive(s.up, r.offer));
    SendDownKeepsDownPause(t, T.SendInLoop(t.down, t.up.input.content, r.w));
  }

  lemma {:induction false} ReadUpKeepsDownPause(s: Session, script: seq<Read>, closed: bool)
    ensures ReadUp(s, script, closed).downPaused == s.downPaused
    decreases script
  {
    if script != [] {
      var t := ReadUpOnce(s, script[0]);
      ReadUpOnceKeepsDownPause(s, script[0]);
      if t.up.IsReading() { ReadUpKeepsDownPause(t, script[1..], closed); }
    }
  }

  lemma HandleUpKeepsDownPause(s: Session, e: C.Revents, script: seq<Read>, closed: bool, w: T.WriteResult)
    ensures HandleUp(s, e, script, closed, w).downPaused == s.downPaused
  {
    var a := if e.hup && !e.input then CloseUp(s) else s;
    assert a.downPaused == s.downPaused;
    ReadUpKeepsDownPause(a, script, closed);
  }

  lemma HandleDownKeepsDownPause(s: Session, e: C.Revents, script: seq<Read>, closed: bool, w: T.WriteResult)
    requires s.downPaused
    ensures var t := HandleDown(s, e, script, closed, w); t.torn || t.downPaused
  {
    var a := if e.hup && !e.input then CloseDown(s) else s;
    var b := if e.Readable() then ReadDown(a, script, closed) else a;
    if a.downPaused { ReadDownKeepsPause(a, script, closed); } else { ReadDownStaysTorn(a, script, closed); }
    assert b.torn || b.downPaused;
  }

  lemma {:induction false} ReadDownStaysTorn(s: Session, script: seq<Read>, closed: bool)
    requires s.torn
    ensures ReadDown(s, script, closed).torn
    decreases script
  {
    if script != [] {
      var t := ReadDownOnce(s, script[0]);
      if t.down.IsReading() { ReadDownStaysTorn(t, script[1..], closed); }
    }
  }

  /** A pause of the client ends only in a functor that finds the backlog toward the backend empty. */
  lemma DownResumesOnlyWhenDrained(s: Session, step: Step)
    requires Enabled(s, step) && s.downPaused
    ensures var t := Next(s, step);
      !t.torn && !t.downPaused ==> step.NextFunctor? && s.batch[0] == WriteComplete(Up) && s.up.output == ""
  {
    match step
    case UpEvent(script, closed, w) =>
      HandleUpKeepsDownPause(s.(upEvent := None), s.upEvent.value, script, closed, w);
    case DownEvent(script, closed, w) =>
      HandleDownKeepsDownPause(s.(downEvent := None), s.downEvent.value, script, closed, w);
    case _ =>
  }

  lemma {:induction false} RunConcat(s: Session, a: seq<Step>, b: seq<Step>)
    requires IsRun(s, a) && IsRun(After(s, a), b)
    ensures IsRun(s, a + b) && After(s, a + b) == After(After(s, a), b)
    decreases a
  {
    if a == [] {
      assert a + b == b;
    } else {
      assert (a + b)[1..] == a[1..] + b;
      RunConcat(Next(s, a[0]), a[1..], b);
    }
  }

  lemma Extend(s: Session, steps: seq<Step>, step: Step)
    requires IsRun(s, steps) && Enabled(After(s, steps), step)
    ensures IsRun(s, steps + [step]) && After(s, steps + [step]) == Next(After(s, steps), step)
  {
    var t := After(s, steps);
    var one := [step];
    assert one[0] == step && one[1..] == [];
    assert IsRun(Next(t, one[0]), one[1..]);
    assert IsRun(t, one);
    assert After(t, one) == After(Next(t, one[0]), one[1..]);
    RunConcat(s, steps, [step]);
  }

  /** Running the functors of a batch lifts the pause of the upstream if the downstream is drained. */
  lemma {:induction false} BatchLifts(s: Session) returns (steps: seq<Step>)
    requires !s.torn && Inv(s) && Bridged(s) && s.phase == Running && s.down.output == ""
    requires s.upPaused ==> WriteComplete(Down) in s.batch
    ensures IsRun(s, steps)
    ensures var t := After(s, steps); !t.torn && t.upRef && t.up.IsReading()
    decreases |s.batch|
  {
    if !s.upPaused {
      steps := [];
    } else {
      var t := Next(s, NextFunctor);
      NextFunctorKeeps(s);
      assert s.batch == [s.batch[0]] + s.batch[1..];
      var rest := BatchLifts(t);
      steps := [NextFunctor] + rest;
      assert steps[1..] == rest;
    }
  }

  const WRITABLE := C.Revents(false, false, false, true, false, false)

  lemma DownWriteDrains(s: Session)
    requires !s.torn && Inv(s) && Bridged(s) && s.phase == Handling && s.downEvent == Some(WRITABLE)
    requires s.upEvent.None? && !s.connEvent && s.down.output != ""
    ensures var t := Next(s, DownEvent([], false, T.Accepted(|s.down.output|)));
      && !t.torn && Inv(t) && Bridged(t) && t.down.output == ""
      && t.phase == Handling && t.upEvent.None? && t.downEvent.None? && !t.connEvent
  {
    StepKeeps(s, DownEvent([], false, T.Accepted(|s.down.output|)));
  }

  /** Polling for EPOLLOUT and letting the downstream kernel take everything leaves a write-complete functor. */
  lemma BacklogCanDrain(s: Session) returns (steps: seq<Step>)
    requires !s.torn && Inv(s) && Bridged(s) && s.phase == Polling
    ensures IsRun(s, steps)
    ensures var t := After(s, steps);
      && !t.torn && Inv(t) && Bridged(t) && t.down.output == ""
      && t.phase == Handling && t.upEvent.None? && t.downEvent.None? && !t.connEvent
  {
    var poll := Poll(None, if s.down.output == "" then None else Some(WRITABLE), false);
    StepKeeps(s, poll);
    steps := [];
    Extend(s, steps, poll);
    steps := [poll];
    if s.down.output != "" {
      var write := DownEvent([], false, T.Accepted(|s.down.output|));
      DownWriteDrains(Next(s, poll));
      Extend(s, steps, write);
      steps := steps + [write];
    }
  }

  /** From a state about to poll: let the downstream kernel accept its backlog, and the upstream is read again. */
  lemma PauseCanBeLifted(s: Session) returns (steps: seq<Step>)
    requires Reachable(s) && !s.torn && s.upRef && s.phase == Polling
    ensures IsRun(s, steps)
    ensures var t := After(s, steps); !t.torn && t.upRef && t.up.IsReading()
  {
    ReachableHolds(s);
    steps := BacklogCanDrain(s);
    var a := After(s, steps);
    StepKeeps(a, SwapFunctors);
    Extend(s, steps, SwapFunctors);
    steps := steps + [SwapFunctors];
    var c := After(s, steps);
    assert Bridged(c);
    var rest := BatchLifts(c);
    RunConcat(s, steps, rest);
    steps := steps + rest;
  }

  // The same for the other direction.

  lemma FunctorLifts(s: Session, f: Functor)
    requires !s.torn && !Waiting(s) && s.phase == Running && s.up.output == "" && s.up.completeCallback
    ensures var t := RunFunctor(s, f);
      && !t.torn && !Waiting(t) && t.phase == Running && t.up.output == "" && t.upRef == s.upRef
      && (t.downPaused ==> s.downPaused && f != WriteComplete(Up))
  {
  }

  lemma FunctorTowardLift(s: Session)
    requires !s.torn && Inv(s) && !Waiting(s) && s.phase == Running && s.up.output == ""
    requires s.downPaused && WriteComplete(Up) in s.batch
    ensures Enabled(s, NextFunctor)
    ensures var t := Next(s, NextFunctor);
      && !t.torn && !Waiting(t) && t.phase == Running && t.up.output == "" && t.upRef == s.upRef
      && (t.downPaused ==> WriteComplete(Up) in t.batch)
  {
    assert s.batch == [s.batch[0]] + s.batch[1..];
    RunOneShortens(s);
    FunctorLifts(s.(batch := s.batch[1..]), s.batch[0]);
  }

  lemma {:induction false} BatchLiftsDown(s: Session) returns (steps: seq<Step>)
    requires !s.torn && Inv(s) && !Waiting(s) && s.phase == Running && s.up.output == ""
    requires s.downPaused ==> WriteComplete(Up) in s.batch
    ensures IsRun(s, steps)
    ensures var t := After(s, steps); !t.torn && t.upRef == s.upRef && t.down.IsReading()
    decreases |s.batch|
  {
    if !s.downPaused {
      steps := [];
    } else {
      FunctorTowardLift(s);
      NextFunctorKeeps(s);
      RunOneShortens(s);
      var rest := BatchLiftsDown(Next(s, NextFunctor));
      steps := [NextFunctor] + rest;
      assert steps[1..] == rest;
    }
  }

  lemma UpWriteDrains(s: Session)
    requires !s.torn && Inv(s) && Bridged(s) && s.phase == Handling && s.upEvent == Some(WRITABLE)
    requires s.downEvent.None? && !s.connEvent && s.up.output != ""
    ensures var t := Next(s, UpEvent([], false, T.Accepted(|s.up.output|)));
      && !t.torn && Inv(t) && Bridged(t) && t.up.output == ""
      && t.phase == Handling && t.upEvent.None? && t.downEvent.None? && !t.connEvent
  {
    StepKeeps(s, UpEvent([], false, T.Accepted(|s.up.output|)));
  }

  lemma UpBacklogCanDrain(s: Session) returns (steps: seq<Step>)
    requires !s.torn && Inv(s) && Bridged(s) && s.phase == Polling
    ensures IsRun(s, steps)
    ensures var t := After(s, steps);
      && !t.torn && Inv(t) && Bridged(t) && t.up.output == ""
      && t.phase == Handling && t.upEvent.None? && t.downEvent.None? && !t.connEvent
  {
    var poll := Poll(if s.up.output == "" then None else Some(WRITABLE), None, false);
    StepKeeps(s, poll);
    steps := [];
    Extend(s, steps, poll);
    steps := [poll];
    if s.up.output != "" {
      var write := UpEvent([], false, T.Accepted(|s.up.output|));
      UpWriteDrains(Next(s, poll));
      Extend(s, steps, write);
      steps := steps + [write];
    }
  }

  lemma DownPauseCanBeLifted(s: Session) returns (steps: seq<Step>)
    requires Reachable(s) && !s.torn && s.upRef && s.phase == Polling
    ensures IsRun(s, steps)
    ensures var t := After(s, steps); !t.torn && t.upRef && t.down.IsReading()
  {
    ReachableHolds(s);
    steps := UpBacklogCanDrain(s);
    var a := After(s, steps);
    StepKeeps(a, SwapFunctors);
    Extend(s, steps, SwapFunctors);
    steps := steps + [SwapFunctors];
    var c := After(s, steps);
    assert Bridged(c);
    var rest := BatchLiftsDown(c);
    RunConcat(s, steps, rest);
    steps := steps + rest;
  }
}
