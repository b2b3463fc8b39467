/** The proxied streams and the ends of a session, told by what the kernel reports: the bytes it hands over, how many
    it takes, and when a stream ends. */
module ProxyStreams {
  import opened Prelude
  import B = BufferSpec
  import C = ChannelSpec
  import T = TcpConnectionSpec
  import opened ProxySpec
  import opened ProxyTheorems
  import opened ProxyFaults
  import ProxyStuck

  // ---------- What a step hands to either side ----------

  /** The reads of one event of the backend, each sent to the client, until the client's backlog reaches the mark. */
  function UpReads(s: Session, script: seq<Read>): seq<T.Op>
    decreases script
  {
    if script == [] then []
    else
      var t := ReadUpOnce(s, script[0]);
      [T.OpSend(B.Taken(s.up.input, script[0].offer), script[0].w)] +
      if |t.down.output| < MARK then UpReads(t, script[1..]) else []
  }

  /** None of them reaches the mark. */
  predicate UpReadsAll(s: Session, script: seq<Read>)
    decreases script
  {
    script != [] ==>
      var t := ReadUpOnce(s, script[0]);
      |t.down.output| < MARK && UpReadsAll(t, script[1..])
  }

  /** From s to t the backlog toward the backend has not crossed the mark, and the client was not paused before. */
  predicate ClientGoesOn(s: Session, t: Session) {
    !s.downPaused && !(s.upRef && |s.up.output| < MARK <= |t.up.output|)
  }

  /** The reads of one event of the client: each sent to the backend that is connected, until the client is paused. */
  function DownReads(s: Session, script: seq<Read>): seq<T.Op>
    decreases script
  {
    if script == [] then []
    else
      var t := ReadDownOnce(s, script[0]);
      [T.OpSend(B.Taken(s.down.input, script[0].offer), script[0].w)] +
      if ClientGoesOn(s, t) then DownReads(t, script[1..]) else []
  }

  predicate DownReadsAll(s: Session, script: seq<Read>)
    decreases script
  {
    script != [] ==>
      var t := ReadDownOnce(s, script[0]);
      ClientGoesOn(s, t) && DownReadsAll(t, script[1..])
  }

  /** The event ends the backend: a hang-up without input, or reads that come to the end of the stream unpaused. */
  predicate EndsUp(s: Session, step: Step)
    requires step.UpEvent? && s.upEvent.Some?
  {
    var e := s.upEvent.value;
    || (e.hup && !e.input)
    || (e.Readable() && step.closed && UpReadsAll(s.(upEvent := None), step.script))
  }

  predicate EndsDown(s: Session, step: Step)
    requires step.DownEvent? && s.downEvent.Some?
  {
    var e := s.downEvent.value;
    || (e.hup && !e.input)
    || (e.Readable() && step.closed && DownReadsAll(s.(downEvent := None), step.script))
  }

  /** What a step offers to the client's kernel. */
  ghost function ClientOps(s: Session, step: Step): seq<T.Op>
    requires Enabled(s, step)
  {
    match step
    case UpEvent(script, _, _) => if s.upEvent.value.Readable() then UpReads(s.(upEvent := None), script) else []
    case DownEvent(_, _, w) => if s.downEvent.value.output then [T.OpWrite(w)] else []
    case _ => []
  }

  ghost function ClientRun(s: Session, steps: seq<Step>): seq<T.Op>
    requires IsRun(s, steps)
    decreases steps
  {
    if steps == [] then [] else ClientOps(s, steps[0]) + ClientRun(Next(s, steps[0]), steps[1..])
  }

  /** What a step offers to the backend's kernel. */
  ghost function BackendOps(s: Session, step: Step): seq<T.Op>
    requires Enabled(s, step)
  {
    match step
    case DownEvent(script, _, _) =>
      if s.upRef && s.downEvent.value.Readable() then DownReads(s.(downEvent := None), script) else []
    case UpEvent(_, _, w) => if s.upRef && s.upEvent.value.output && !EndsUp(s, step) then [T.OpWrite(w)] else []
    case ConnectEvent(w) => if s.pendingUp != "" then [T.OpSend(s.pendingUp, w)] else []
    case _ => []
  }

  ghost function BackendRun(s: Session, steps: seq<Step>): seq<T.Op>
    requires IsRun(s, steps)
    decreases steps
  {
    if steps == [] then [] else BackendOps(s, steps[0]) + BackendRun(Next(s, steps[0]), steps[1..])
  }

  // ---------- One read of the backend ----------

  /** Between two connections: what was taken and waits, and what was offered. */
  ghost predicate Carried(c: T.Conn, d: T.Conn, ops: seq<T.Op>) {
    T.WireOf(d) == T.WireRun(T.WireOf(c), ops)
  }

  ghost predicate Heard(c: T.Conn, d: T.Conn, bytes: Bytes) {
    d.received == c.received + bytes
  }

  lemma CarriedNothing(c: T.Conn)
    ensures Carried(c, c, []) && Heard(c, c, "")
  {
  }

  lemma CarriedOn(c: T.Conn, d: T.Conn, e: T.Conn, a: seq<T.Op>, b: seq<T.Op>)
    requires Carried(c, d, a) && Carried(d, e, b)
    ensures Carried(c, e, a + b)
  {
    T.WireAppend(T.WireOf(c), a, b);
  }

  lemma HeardOn(c: T.Conn, d: T.Conn, e: T.Conn, a: Bytes, b: Bytes)
    requires Heard(c, d, a) && Heard(d, e, b)
    ensures Heard(c, e, a + b)
  {
    Associate(c.received, a, b);
  }

  lemma OneSend(c: T.Conn, data: Bytes, w: T.WriteResult)
    requires T.Armed(c) && c.state != T.Disconnected
    ensures Carried(c, T.SendInLoop(c, data, w).conn, [T.OpSend(data, w)])
  {
    T.StepIsWire(c, T.OpSend(data, w));
    T.WireOne(T.WireOf(c), T.OpSend(data, w));
  }

  lemma OneWrite(c: T.Conn, w: T.WriteResult)
    requires T.Armed(c) && c.state != T.Disconnected
    ensures Carried(c, T.HandleWrite(c, w).conn, [T.OpWrite(w)])
  {
    T.StepIsWire(c, T.OpWrite(w));
    T.WireOne(T.WireOf(c), T.OpWrite(w));
  }

  lemma UpReadOnce(s: Session, r: Read)
    requires !s.torn && Inv(s) && s.upEvent.None? && Bridged(s) && s.up.IsReading()
    ensures var t := ReadUpOnce(s, r); var data := B.Taken(s.up.input, r.offer);
      && Carried(s.down, t.down, [T.OpSend(data, r.w)]) && Heard(s.up, t.up, data)
      && (t.up.IsReading() <==> |t.down.output| < MARK)
  {
    var t, data := ReadUpOnce(s, r), B.Taken(s.up.input, r.offer);
    ReadUpOnceKeeps(s, r);
    B.ReadIntoDrained(s.up.input, r.offer);
    OneSend(s.down, data, r.w);
    UpReadSends(s, r);
    UpReadPauses(s, r);
  }

  /** A read sends what it read to the client, whatever was there before. */
  lemma UpReadSends(s: Session, r: Read)
    requires !s.torn && B.Drained(s.up.input)
    ensures var t := ReadUpOnce(s, r); var data := B.Taken(s.up.input, r.offer);
      t.down == T.SendInLoop(s.down, data, r.w).conn && Heard(s.up, t.up, data)
  {
    var a := s.(up := T.Receive(s.up, r.offer));
    B.ReadIntoDrained(s.up.input, r.offer);
    assert a.up.input.content == B.Taken(s.up.input, r.offer);
    OnUpstreamForwards(a, r.w);
    AfterSendSides(EmptiedUp(a), T.SendInLoop(a.down, a.up.input.content, r.w));
  }

  lemma AfterSendSides(s: Session, o: T.Outcome)
    ensures var t := AfterSendDown(s, o); t.down == o.conn && t.up.received == s.up.received
    ensures var t := AfterSendUp(s, o); t.up == o.conn && t.down.received == s.down.received
  {
    SendDownSides(s, o);
    SendUpSides(s, o);
  }

  lemma SendDownSides(s: Session, o: T.Outcome)
    ensures var t := AfterSendDown(s, o); t.down == o.conn && t.up.received == s.up.received
  {
  }

  lemma SendUpSides(s: Session, o: T.Outcome)
    ensures var t := AfterSendUp(s, o); t.up == o.conn && t.down.received == s.down.received
  {
  }

  lemma UpReadPauses(s: Session, r: Read)
    requires !s.torn && Inv(s) && s.upEvent.None? && Bridged(s) && s.up.IsReading()
    ensures var t := ReadUpOnce(s, r); t.up.IsReading() <==> |t.down.output| < MARK
  {
    ReadUpOnceKeeps(s, r);
    UpReadSends(s, r);
    var data := B.Taken(s.up.input, r.offer);
    B.ReadIntoDrained(s.up.input, r.offer);
    SendHasEffect(s.down, data, r.w);
    UpReadPausesAtMark(s, r);
  }

  lemma UpReadPausesAtMark(s: Session, r: Read)
    requires !s.torn && s.upRef && !s.upPaused && B.Drained(s.up.input)
    requires var o := T.SendInLoop(s.down, B.Taken(s.up.input, r.offer), r.w);
      o.high <==> |s.down.output| < MARK <= |o.conn.output|
    requires |s.down.output| < MARK
    ensures var t := ReadUpOnce(s, r); t.upPaused <==> |t.down.output| >= MARK
  {
    var a := s.(up := T.Receive(s.up, r.offer));
    B.ReadIntoDrained(s.up.input, r.offer);
    assert a.up.input.content == B.Taken(s.up.input, r.offer);
    OnUpstreamForwards(a, r.w);
  }

  // ---------- An event of the backend ----------

  lemma {:induction false} UpReadsCarry(s: Session, script: seq<Read>, closed: bool)
    requires !s.torn && Inv(s) && s.upEvent.None? && s.phase == Handling && Bridged(s) && s.up.IsReading()
    ensures var t := ReadUp(s, script, closed);
      && Carried(s.down, t.down, UpReads(s, script)) && Heard(s.up, t.up, T.Offered(UpReads(s, script)))
      && !t.torn && (if closed && UpReadsAll(s, script) then Gone(t) else Bridged(t))
    decreases script
  {
    if script == [] {
      CarriedNothing(s.down);
      CarriedNothing(s.up);
      if closed { CloseUpEnds(s); }
    } else {
      var t := ReadUpOnce(s, script[0]);
      var op := T.OpSend(B.Taken(s.up.input, script[0].offer), script[0].w);
      UpReadOnce(s, script[0]);
      ReadUpOnceKeeps(s, script[0]);
      T.OfferedOne(op);
      if t.up.IsReading() {
        UpReadsCarry(t, script[1..], closed);
        var u := ReadUp(t, script[1..], closed);
        CarriedOn(s.down, t.down, u.down, [op], UpReads(t, script[1..]));
        T.OfferedAppend([op], UpReads(t, script[1..]));
        HeardOn(s.up, t.up, u.up, op.data, T.Offered(UpReads(t, script[1..])));
      } else {
        assert [op] + [] == [op];
      }
    }
  }

  /** The backend is gone: the session lets go of it, asks for the client's shutdown and for the destruction. */
  ghost predicate Gone(t: Session) {
    && !t.torn && !t.upRef && !t.upReady && t.up.state == T.Disconnecting && t.up.chan.events == C.NOTHING
    && t.down.state == T.Disconnecting && DestroyUp in t.pending
  }

  lemma CloseUpEnds(s: Session)
    requires !s.torn && s.up.state == T.Connected && s.down.state == T.Connected
    ensures var t := CloseUp(s);
      && Gone(t) && Carried(s.down, t.down, []) && Carried(s.up, t.up, [])
      && Heard(s.up, t.up, "") && Heard(s.down, t.down, "")
      && (t.down.halfClosed <==> s.down.halfClosed || !s.down.IsWriting())
  {
    CarriedNothing(s.down);
    CarriedNothing(s.up);
  }

  /** Writing to the backend changes nothing on the client's side, and what it carries is the kernel's answer. */
  lemma WriteUpCarries(s: Session, w: T.WriteResult)
    requires T.Armed(s.up) && s.up.state != T.Disconnected
    ensures var t := WriteUp(s, w);
      && Carried(s.up, t.up, [T.OpWrite(w)]) && t.down == s.down && Heard(s.up, t.up, "")
  {
    OneWrite(s.up, w);
    assert s.up.received + "" == s.up.received;
  }

  lemma WriteDownCarries(s: Session, w: T.WriteResult)
    requires T.Armed(s.down) && s.down.state != T.Disconnected
    ensures var t := WriteDown(s, w);
      && Carried(s.down, t.down, [T.OpWrite(w)]) && t.up == s.up && Heard(s.down, t.down, "")
  {
    OneWrite(s.down, w);
    assert s.down.received + "" == s.down.received;
  }

  lemma {:induction false} ReadUpSparesUpWire(s: Session, script: seq<Read>, closed: bool)
    ensures UpSpared(s, ReadUp(s, script, closed))
    decreases script
  {
    if script != [] {
      var t := ReadUpOnce(s, script[0]);
      ReadUpOnceSparesUpWire(s, script[0]);
      if t.up.IsReading() { ReadUpSparesUpWire(t, script[1..], closed); }
    }
  }

  lemma SendDownSpares(s: Session, o: T.Outcome)
    ensures T.WireOf(AfterSendDown(s, o).up) == T.WireOf(s.up) && AfterSendDown(s, o).pendingUp == s.pendingUp
  {
  }

  lemma SendUpSpares(s: Session, o: T.Outcome)
    ensures T.WireOf(AfterSendUp(s, o).down) == T.WireOf(s.down) && AfterSendUp(s, o).pendingUp == s.pendingUp
  {
  }

  lemma SendKeepsReceived(c: T.Conn, data: Bytes, w: T.WriteResult)
    ensures T.SendInLoop(c, data, w).conn.received == c.received
  {
  }

  /** What reading the backend leaves alone. */
  ghost predicate UpSpared(s: Session, t: Session) {
    T.WireOf(t.up) == T.WireOf(s.up) && t.down.received == s.down.received && t.pendingUp == s.pendingUp
  }

  lemma SendDownSparesUpSide(s: Session, data: Bytes, w: T.WriteResult)
    ensures UpSpared(s, SendDown(s, data, w))
  {
    var o := T.SendInLoop(s.down, data, w);
    SendDownSpares(s, o);
    AfterSendSides(s, o);
    SendKeepsReceived(s.down, data, w);
  }

  lemma OnUpstreamSpares(s: Session, w: T.WriteResult)
    ensures UpSpared(s, OnUpstreamData(s, w))
  {
    var t := if s.torn then s else SendDown(s, s.up.input.content, w);
    SendDownSparesUpSide(s, s.up.input.content, w);
    assert UpSpared(s, EmptiedUp(t));
  }

  lemma ReadUpOnceSparesUpWire(s: Session, r: Read)
    ensures UpSpared(s, ReadUpOnce(s, r))
  {
    OnUpstreamSpares(s.(up := T.Receive(s.up, r.offer)), r.w);
  }

  /** What the reads and the hang-up of an event leave, before its write. */
  lemma BeforeWriteUpCarries(s: Session, step: Step)
    requires Inv(s) && Enabled(s, step) && step.UpEvent? && Bridged(s)
    ensures var t := BeforeWriteUp(s.(upEvent := None), s.upEvent.value, step.script, step.closed);
      && Carried(s.down, t.down, ClientOps(s, step)) && Heard(s.up, t.up, T.Offered(ClientOps(s, step)))
      && UpSpared(s, t) && !t.torn && (if EndsUp(s, step) then Gone(t) else Bridged(t))
  {
    var e, a := s.upEvent.value, s.(upEvent := None);
    assert Inv(a) && Bridged(a);
    CarriedNothing(s.down);
    CarriedNothing(s.up);
    if e.Readable() {
      UpReadsCarry(a, step.script, step.closed);
      ReadUpSparesUpWire(a, step.script, step.closed);
    } else if e.hup {
      CloseUpEnds(a);
    }
  }

  ghost predicate UpEventFacts(s: Session, step: Step, t: Session)
    requires Enabled(s, step) && step.UpEvent?
  {
    && Carried(s.down, t.down, ClientOps(s, step)) && Carried(s.up, t.up, BackendOps(s, step))
    && Heard(s.up, t.up, T.Offered(ClientOps(s, step)))
    && t.down.received == s.down.received && t.pendingUp == s.pendingUp
    && !t.torn && (if EndsUp(s, step) then Gone(t) else Bridged(t))
  }

  lemma WriteOfUpEvent(s: Session, step: Step, t: Session)
    requires Enabled(s, step) && step.UpEvent? && s.upRef && T.WireOf(t.up) == T.WireOf(s.up)
    requires !t.torn && (if EndsUp(s, step) then Gone(t) else Bridged(t))
    ensures var u := if s.upEvent.value.output then WriteUp(t, step.w) else t;
      && Carried(s.up, u.up, BackendOps(s, step)) && u.up.received == t.up.received
      && u.down == t.down && u.pendingUp == t.pendingUp
      && !u.torn && (if EndsUp(s, step) then Gone(u) else Bridged(u))
  {
    CarriedNothing(t.up);
    if s.upEvent.value.output {
      if EndsUp(s, step) {
        assert WriteUp(t, step.w) == t;
      } else {
        WriteUpCarries(t, step.w);
        WriteUpKeepsBridged(t, step.w);
      }
    }
  }

  lemma UpEventCarries(s: Session, step: Step)
    requires Inv(s) && Enabled(s, step) && step.UpEvent? && Bridged(s)
    ensures UpEventFacts(s, step, Next(s, step))
  {
    var e, a := s.upEvent.value, s.(upEvent := None);
    var t := BeforeWriteUp(a, e, step.script, step.closed);
    BeforeWriteUpCarries(s, step);
    WriteOfUpEvent(s, step, t);
    assert Next(s, step) == if e.output then WriteUp(t, step.w) else t;
  }

  lemma WriteUpKeepsBridged(s: Session, w: T.WriteResult)
    requires Bridged(s)
    ensures Bridged(WriteUp(s, w)) && WriteUp(s, w).up.received == s.up.received && WriteUp(s, w).torn == s.torn
  {
    WriteHasEffect(s.up, w);
  }

  // ---------- An event of the client ----------

  /** A read sends what it read to the backend when it is connected, and holds it otherwise. */
  lemma DownReadSends(s: Session, r: Read)
    requires !s.torn && B.Drained(s.down.input) && (s.upReady <==> s.upRef)
    ensures var t := ReadDownOnce(s, r); var data := B.Taken(s.down.input, r.offer);
      && t.up == (if s.upRef then T.SendInLoop(s.up, data, r.w).conn else s.up)
      && t.pendingUp == (if s.upRef then s.pendingUp else s.pendingUp + data)
      && Heard(s.down, t.down, data) && T.WireOf(t.down) == T.WireOf(s.down)
      && t.down.state == s.down.state
  {
    var a := s.(down := T.Receive(s.down, r.offer));
    B.ReadIntoDrained(s.down.input, r.offer);
    assert a.down.input.content == B.Taken(s.down.input, r.offer);
    if s.upRef {
      OnDownstreamForwards(a, r.w);
      var o := T.SendInLoop(a.up, a.down.input.content, r.w);
      AfterSendSides(EmptiedDown(a), o);
      SendUpSpares(EmptiedDown(a), o);
    }
  }

  /** Reading the client goes on unless the bytes read take the backlog toward the backend across the mark. */
  lemma DownReadPauses(s: Session, r: Read)
    requires !s.torn && Inv(s)
    ensures var t := ReadDownOnce(s, r); t.down.IsReading() <==> ClientGoesOn(s, t)
  {
    ReadDownOnceKeeps(s, r);
    DownReadSends(s, r);
    if Bridged(s) {
      var data := B.Taken(s.down.input, r.offer);
      B.ReadIntoDrained(s.down.input, r.offer);
      SendHasEffect(s.up, data, r.w);
      DownReadPausesAtMark(s, r);
    } else {
      HeldReadLeavesPause(s, r);
    }
  }

  lemma DownReadPausesAtMark(s: Session, r: Read)
    requires !s.torn && s.upRef && s.upReady && B.Drained(s.down.input)
    requires var o := T.SendInLoop(s.up, B.Taken(s.down.input, r.offer), r.w);
      o.high <==> |s.up.output| < MARK <= |o.conn.output|
    ensures var t := ReadDownOnce(s, r); t.downPaused <==> s.downPaused || |s.up.output| < MARK <= |t.up.output|
  {
    var a := s.(down := T.Receive(s.down, r.offer));
    B.ReadIntoDrained(s.down.input, r.offer);
    assert a.down.input.content == B.Taken(s.down.input, r.offer);
    OnDownstreamForwards(a, r.w);
  }

  lemma HeldReadLeavesPause(s: Session, r: Read)
    requires !s.upRef
    ensures ReadDownOnce(s, r).downPaused == s.downPaused
  {
  }

  /** What the reads of the client did, in a session from s to t that is not torn down. */
  ghost predicate DownHeard(s: Session, t: Session, ops: seq<T.Op>) {
    && t.upRef == s.upRef
    && Carried(s.up, t.up, if s.upRef then ops else [])
    && (!t.torn ==> t.pendingUp == if s.upRef then s.pendingUp else s.pendingUp + T.Offered(ops))
    && Heard(s.down, t.down, T.Offered(ops)) && T.WireOf(t.down) == T.WireOf(s.down)
  }

  lemma DownHeardOne(s: Session, r: Read)
    requires !s.torn && Inv(s)
    ensures var t := ReadDownOnce(s, r);
      && DownHeard(s, t, [T.OpSend(B.Taken(s.down.input, r.offer), r.w)])
      && !t.torn && t.down.state == s.down.state && t.up.received == s.up.received
  {
    var op := T.OpSend(B.Taken(s.down.input, r.offer), r.w);
    DownReadSends(s, r);
    T.OfferedOne(op);
    ReadDownOnceKeepsRefs(s, r);
    if s.upRef {
      OneSend(s.up, op.data, r.w);
      SendKeepsReceived(s.up, op.data, r.w);
    } else {
      CarriedNothing(s.up);
    }
  }

  lemma ReadDownOnceKeepsRefs(s: Session, r: Read)
    ensures var t := ReadDownOnce(s, r); t.upRef == s.upRef && t.torn == s.torn
  {
    var t := s.(down := T.Receive(s.down, r.offer));
    SendUpKeepsRefs(t, T.SendInLoop(t.up, t.down.input.content, r.w));
  }

  lemma SendUpKeepsRefs(s: Session, o: T.Outcome)
    ensures var t := AfterSendUp(s, o); t.upRef == s.upRef && t.torn == s.torn
  {
  }

  lemma DownHeardOn(s: Session, t: Session, u: Session, a: seq<T.Op>, b: seq<T.Op>)
    requires DownHeard(s, t, a) && DownHeard(t, u, b) && !t.torn
    ensures DownHeard(s, u, a + b)
  {
    T.OfferedAppend(a, b);
    HeardOn(s.down, t.down, u.down, T.Offered(a), T.Offered(b));
    if s.upRef {
      CarriedOn(s.up, t.up, u.up, a, b);
    } else {
      Associate(s.pendingUp, T.Offered(a), T.Offered(b));
    }
  }

  lemma DownHeardNothing(s: Session)
    ensures DownHeard(s, s, [])
  {
    CarriedNothing(s.up);
    CarriedNothing(s.down);
    assert s.pendingUp + "" == s.pendingUp;
  }

  lemma {:induction false} DownReadsCarry(s: Session, script: seq<Read>, closed: bool)
    requires !s.torn && Inv(s)
    ensures var t := ReadDown(s, script, closed);
      && (t.torn <==> closed && DownReadsAll(s, script) && s.down.state == T.Connected)
      && (!t.torn ==> DownHeard(s, t, DownReads(s, script)) && t.up.received == s.up.received && Inv(t))
    decreases script
  {
    if script == [] {
      DownHeardNothing(s);
    } else {
      var t := ReadDownOnce(s, script[0]);
      var op := T.OpSend(B.Taken(s.down.input, script[0].offer), script[0].w);
      ReadDownOnceKeeps(s, script[0]);
      DownHeardOne(s, script[0]);
      DownReadPauses(s, script[0]);
      if t.down.IsReading() {
        DownReadsCarry(t, script[1..], closed);
        var u := ReadDown(t, script[1..], closed);
        if !u.torn { DownHeardOn(s, t, u, [op], DownReads(t, script[1..])); }
      } else {
        assert [op] + [] == [op];
      }
    }
  }

  ghost predicate DownEventFacts(s: Session, step: Step, t: Session)
    requires Enabled(s, step) && step.DownEvent?
  {
    && (t.torn <==> s.down.state == T.Connected && EndsDown(s, step))
    && (!t.torn ==>
          && Carried(s.down, t.down, ClientOps(s, step)) && Carried(s.up, t.up, BackendOps(s, step))
          && Heard(s.down, t.down, T.Offered(DownEventReads(s, step))) && t.up.received == s.up.received
          && t.pendingUp == if s.upRef then s.pendingUp else s.pendingUp + T.Offered(DownEventReads(s, step)))
  }

  /** Everything the event reads from the client. */
  ghost function DownEventReads(s: Session, step: Step): seq<T.Op>
    requires Enabled(s, step) && step.DownEvent?
  {
    if s.downEvent.value.Readable() then DownReads(s.(downEvent := None), step.script) else []
  }

  lemma BeforeWriteDownCarries(s: Session, step: Step)
    requires Inv(s) && Enabled(s, step) && step.DownEvent?
    ensures var t := BeforeWriteDown(s.(downEvent := None), s.downEvent.value, step.script, step.closed);
      && (t.torn <==> s.down.state == T.Connected && EndsDown(s, step))
      && (!t.torn ==> DownHeard(s, t, DownEventReads(s, step)) && t.up.received == s.up.received && Inv(t))
  {
    var e, a := s.downEvent.value, s.(downEvent := None);
    assert Inv(a);
    DownHeardNothing(s);
    if e.Readable() { DownReadsCarry(a, step.script, step.closed); }
  }

  /** After the reads the client's side may be written to. */
  lemma WrittenAfterReads(s: Session, t: Session, u: Session, heard: seq<T.Op>, ops: seq<T.Op>)
    requires DownHeard(s, t, heard) && !t.torn && u.up == t.up && u.pendingUp == t.pendingUp
    requires Carried(t.down, u.down, ops) && Heard(t.down, u.down, "")
    ensures Carried(s.down, u.down, ops) && Carried(s.up, u.up, if s.upRef then heard else [])
    ensures Heard(s.down, u.down, T.Offered(heard))
    ensures u.pendingUp == if s.upRef then s.pendingUp else s.pendingUp + T.Offered(heard)
  {
  }

  lemma WriteOfDownEvent(s: Session, step: Step, t: Session)
    requires Inv(s) && Enabled(s, step) && step.DownEvent? && Inv(t) && !t.torn
    requires DownHeard(s, t, DownEventReads(s, step))
    ensures var e := s.downEvent.value; var u := if e.output then WriteDown(t, step.w) else t;
      && !u.torn && u.up == t.up && u.pendingUp == t.pendingUp
      && Carried(t.down, u.down, ClientOps(s, step)) && Heard(t.down, u.down, "")
  {
    CarriedNothing(t.down);
    if s.downEvent.value.output { WriteDownCarries(t, step.w); }
  }

  lemma TornStaysTorn(t: Session, w: T.WriteResult)
    ensures WriteDown(t, w).torn == t.torn
  {
  }

  lemma DownEventCarries(s: Session, step: Step)
    requires Inv(s) && Enabled(s, step) && step.DownEvent?
    ensures DownEventFacts(s, step, Next(s, step))
  {
    var e, a := s.downEvent.value, s.(downEvent := None);
    var t := BeforeWriteDown(a, e, step.script, step.closed);
    var u := Next(s, step);
    BeforeWriteDownCarries(s, step);
    TornStaysTorn(t, step.w);
    if !t.torn {
      WriteOfDownEvent(s, step, t);
      WrittenAfterReads(s, t, u, DownEventReads(s, step), ClientOps(s, step));
    }
  }

  // ---------- Every step ----------

  /** What was read from the client is what the backend was offered, followed by what is held for it. */
  ghost predicate Accounted(s: Session, offered: Bytes) {
    s.down.received == offered + s.pendingUp
  }

  ghost predicate StepFacts(s: Session, step: Step, t: Session, offered: Bytes)
    requires Enabled(s, step)
  {
    && Carried(s.down, t.down, ClientOps(s, step)) && Carried(s.up, t.up, BackendOps(s, step))
    && Heard(s.up, t.up, T.Offered(ClientOps(s, step)))
    && Accounted(t, offered + T.Offered(BackendOps(s, step)))
  }

  lemma EndedUpEvent(s: Session, step: Step)
    requires Inv(s) && Enabled(s, step) && step.UpEvent? && Ended(s)
    ensures Next(s, step) == s.(upEvent := None) && ClientOps(s, step) == [] && BackendOps(s, step) == []
  {
    ProxyStuck.HandleUpEnded(s.(upEvent := None), s.upEvent.value, step.script, step.closed, step.w);
  }

  lemma UpEventStep(s: Session, step: Step, offered: Bytes)
    requires Inv(s) && Enabled(s, step) && step.UpEvent? && Accounted(s, offered)
    ensures StepFacts(s, step, Next(s, step), offered)
  {
    if Bridged(s) {
      UpEventCarries(s, step);
      T.OfferedOne(T.OpWrite(step.w));
    } else {
      EndedUpEvent(s, step);
      CarriedNothing(s.down);
      CarriedNothing(s.up);
    }
    assert offered + "" == offered;
  }

  lemma DownEventStep(s: Session, step: Step, offered: Bytes)
    requires Inv(s) && Enabled(s, step) && step.DownEvent? && !Next(s, step).torn && Accounted(s, offered)
    ensures StepFacts(s, step, Next(s, step), offered)
  {
    DownEventCarries(s, step);
    var t, heard := Next(s, step), T.Offered(DownEventReads(s, step));
    T.OfferedOne(T.OpWrite(step.w));
    assert t.up.received + "" == t.up.received && offered + "" == offered;
    if s.upRef {
      assert offered + "" + heard == offered + heard + "";
    } else {
      Associate(offered, s.pendingUp, heard);
    }
  }

  lemma ConnectCarries(s: Session, w: T.WriteResult)
    requires !s.torn && Waiting(s)
    ensures var t := UpstreamConnected(s, w); var ops := if s.pendingUp != "" then [T.OpSend(s.pendingUp, w)] else [];
      && Carried(s.up, t.up, ops) && t.up.received == "" && t.pendingUp == ""
      && T.WireOf(t.down) == T.WireOf(s.down) && t.down.received == s.down.received
  {
    CarriedNothing(OPENED);
    if s.pendingUp != "" {
      var a := s.(up := OPENED, upRef := true, upReady := true);
      var o := T.SendInLoop(OPENED, s.pendingUp, w);
      OneSend(OPENED, s.pendingUp, w);
      SendKeepsReceived(OPENED, s.pendingUp, w);
      AfterSendSides(a, o);
      SendUpSpares(a, o);
    }
  }

  lemma ConnectStep(s: Session, step: Step, offered: Bytes)
    requires Inv(s) && Enabled(s, step) && step.ConnectEvent? && Accounted(s, offered)
    ensures StepFacts(s, step, Next(s, step), offered)
  {
    ConnectCarries(s.(connEvent := false), step.w);
    CarriedNothing(s.down);
    T.OfferedOne(T.OpSend(s.pendingUp, step.w));
    assert offered + "" == offered && offered + s.pendingUp + "" == offered + s.pendingUp;
  }

  /** The streams are where they were. */
  ghost predicate StreamsSpared(s: Session, t: Session) {
    && T.WireOf(t.down) == T.WireOf(s.down) && T.WireOf(t.up) == T.WireOf(s.up) && t.pendingUp == s.pendingUp
    && t.down.received == s.down.received && t.up.received == s.up.received
  }

  lemma ResumeSpares(s: Session)
    ensures StreamsSpared(s, DownWriteComplete(s)) && StreamsSpared(s, UpWriteComplete(s))
  {
  }

  lemma FunctorSpares(s: Session, f: Functor)
    ensures StreamsSpared(s, RunFunctor(s, f))
  {
    ResumeSpares(s);
  }

  lemma OtherStep(s: Session, step: Step, offered: Bytes)
    requires Enabled(s, step) && !step.UpEvent? && !step.DownEvent? && !step.ConnectEvent? && Accounted(s, offered)
    ensures StepFacts(s, step, Next(s, step), offered)
  {
    CarriedNothing(s.down);
    CarriedNothing(s.up);
    assert offered + "" == offered && s.up.received + "" == s.up.received;
    if step.NextFunctor? { FunctorSpares(s.(batch := s.batch[1..]), s.batch[0]); }
  }

  lemma StepCarries(s: Session, step: Step, offered: Bytes)
    requires Inv(s) && Enabled(s, step) && !Next(s, step).torn && Accounted(s, offered)
    ensures StepFacts(s, step, Next(s, step), offered)
  {
    match step
    case UpEvent(_, _, _) => UpEventStep(s, step, offered);
    case DownEvent(_, _, _) => DownEventStep(s, step, offered);
    case ConnectEvent(_) => ConnectStep(s, step, offered);
    case _ => OtherStep(s, step, offered);
  }

  ghost predicate RunFacts(s: Session, steps: seq<Step>, t: Session, offered: Bytes)
    requires IsRun(s, steps)
  {
    && Carried(s.down, t.down, ClientRun(s, steps)) && Carried(s.up, t.up, BackendRun(s, steps))
    && Heard(s.up, t.up, T.Offered(ClientRun(s, steps)))
    && Accounted(t, offered + T.Offered(BackendRun(s, steps)))
  }

  lemma {:induction false} NotTornBefore(s: Session, steps: seq<Step>)
    requires IsRun(s, steps) && !After(s, steps).torn
    ensures !s.torn
    decreases steps
  {
    if steps != [] { NotTornBefore(Next(s, steps[0]), steps[1..]); }
  }

  lemma JoinFacts(s: Session, step: Step, rest: seq<Step>, t: Session, offered: Bytes)
    requires Enabled(s, step) && IsRun(Next(s, step), rest) && StepFacts(s, step, Next(s, step), offered)
    requires RunFacts(Next(s, step), rest, t, offered + T.Offered(BackendOps(s, step)))
    ensures var c := ClientOps(s, step) + ClientRun(Next(s, step), rest);
      var b := BackendOps(s, step) + BackendRun(Next(s, step), rest);
      && Carried(s.down, t.down, c) && Carried(s.up, t.up, b) && Heard(s.up, t.up, T.Offered(c))
      && Accounted(t, offered + T.Offered(b))
  {
    var a := Next(s, step);
    CarriedOn(s.down, a.down, t.down, ClientOps(s, step), ClientRun(a, rest));
    CarriedOn(s.up, a.up, t.up, BackendOps(s, step), BackendRun(a, rest));
    T.OfferedAppend(ClientOps(s, step), ClientRun(a, rest));
    T.OfferedAppend(BackendOps(s, step), BackendRun(a, rest));
    HeardOn(s.up, a.up, t.up, T.Offered(ClientOps(s, step)), T.Offered(ClientRun(a, rest)));
    Associate(offered, T.Offered(BackendOps(s, step)), T.Offered(BackendRun(a, rest)));
  }

  lemma {:induction false} RunCarries(s: Session, steps: seq<Step>, offered: Bytes)
    requires Inv(s) && IsRun(s, steps) && !After(s, steps).torn && Accounted(s, offered)
    ensures RunFacts(s, steps, After(s, steps), offered)
    decreases steps
  {
    if steps == [] {
      CarriedNothing(s.down);
      CarriedNothing(s.up);
      assert offered + "" == offered;
      assert s.up.received + "" == s.up.received;
    } else {
      var t := Next(s, steps[0]);
      NotTornBefore(t, steps[1..]);
      StepCarries(s, steps[0], offered);
      StepKeeps(s, steps[0]);
      RunCarries(t, steps[1..], offered + T.Offered(BackendOps(s, steps[0])));
      JoinFacts(s, steps[0], steps[1..], After(s, steps), offered);
    }
  }

  // ---------- Main results ----------

  const NOTHING := T.Wire("", "")

  /** Backend to client, over any run: the bytes the client's kernel took and those that wait are determined by the
      bytes the backend's kernel gave and the answers of the client's kernel; nothing is lost exactly when no write to
      the client fails. */
  lemma UpstreamIsWire(steps: seq<Step>)
    requires IsRun(START, steps) && !After(START, steps).torn
    ensures var s := After(START, steps); var ops := ClientRun(START, steps); var x := T.WireRun(NOTHING, ops);
      && s.down.sent == x.taken && s.down.output == x.waiting && s.up.received == T.Offered(ops)
      && (T.Offered(ops) == x.taken + x.waiting <==> !DownFaulty(START, steps))
  {
    StartHolds();
    RunCarries(START, steps, "");
    UpstreamBytesPreservedIff(steps);
    assert "" + T.Offered(ClientRun(START, steps)) == T.Offered(ClientRun(START, steps));
  }

  /** Client to backend, with what is held until the backend is connected and after it is gone. */
  lemma DownstreamIsWire(steps: seq<Step>)
    requires IsRun(START, steps) && !After(START, steps).torn
    ensures var s := After(START, steps); var ops := BackendRun(START, steps); var x := T.WireRun(NOTHING, ops);
      && s.up.sent == x.taken && s.up.output == x.waiting && s.down.received == T.Offered(ops) + s.pendingUp
      && (T.Offered(ops) == x.taken + x.waiting <==> !UpFaulty(START, steps))
  {
    StartHolds();
    RunCarries(START, steps, "");
    DownstreamBytesPreservedIff(steps);
    var s, offered := After(START, steps), T.Offered(BackendRun(START, steps));
    assert "" + offered == offered;
    SameFront(offered, s.up.sent + s.up.output, s.pendingUp);
  }

  lemma SameFront(a: Bytes, b: Bytes, rest: Bytes)
    ensures a + rest == b + rest <==> a == b
  {
    if a + rest == b + rest {
      assert |a + rest| == |b + rest|;
      AppendPrefix(a, rest);
      AppendPrefix(b, rest);
    }
  }

  /** An event of a connected backend makes it go, and asks for the client's shutdown, exactly when it is a hang-up
      without input or its reads come to the end of the stream without a pause. */
  lemma BackendGoneIff(s: Session, step: Step)
    requires Reachable(s) && s.upRef && Enabled(s, step) && step.UpEvent?
    ensures var t := Next(s, step);
      if EndsUp(s, step) then Gone(t)
      else !t.torn && t.upRef && t.up.state == T.Connected && t.down.state == T.Connected && !t.down.halfClosed
  {
    ReachableHolds(s);
    UpEventCarries(s, step);
  }

  ghost predicate TornDown(t: Session) {
    && t.torn && !t.upRef && !t.upReady && t.pendingUp == "" && !t.upPaused && !t.downPaused
    && t.down.state == T.Disconnecting && t.down.chan.events == C.NOTHING
  }

  lemma {:induction false} ReadsTearDown(s: Session, script: seq<Read>, closed: bool)
    requires !s.torn && ReadDown(s, script, closed).torn
    ensures TornDown(ReadDown(s, script, closed))
    decreases script
  {
    if script != [] {
      ReadDownOnceKeepsRefs(s, script[0]);
      ReadsTearDown(ReadDownOnce(s, script[0]), script[1..], closed);
    }
  }

  lemma TornWriteIsNothing(s: Session, w: T.WriteResult)
    requires TornDown(s)
    ensures WriteDown(s, w) == s
  {
  }

  lemma EventTearsDown(s: Session, step: Step)
    requires Inv(s) && Enabled(s, step) && step.DownEvent? && Next(s, step).torn
    ensures TornDown(Next(s, step))
  {
    var e, a := s.downEvent.value, s.(downEvent := None);
    var t := BeforeWriteDown(a, e, step.script, step.closed);
    TornStaysTorn(t, step.w);
    if e.Readable() && !(e.hup && !e.input) { ReadsTearDown(a, step.script, step.closed); }
    if TornDown(t) { TornWriteIsNothing(t, step.w); }
  }

  lemma ConnectTearsNothing(s: Session, w: T.WriteResult)
    ensures UpstreamConnected(s, w).torn == s.torn
  {
  }

  lemma FunctorTearsNothing(s: Session, f: Functor)
    ensures RunFunctor(s, f).torn == s.torn
  {
  }

  lemma OtherStepsTearNothing(s: Session, step: Step)
    requires Inv(s) && Enabled(s, step) && !step.DownEvent?
    ensures !Next(s, step).torn
  {
    match step
    case UpEvent(_, _, _) => if Bridged(s) { UpEventCarries(s, step); } else { EndedUpEvent(s, step); }
    case ConnectEvent(w) => ConnectTearsNothing(s.(connEvent := false), w);
    case NextFunctor => FunctorTearsNothing(s.(batch := s.batch[1..]), s.batch[0]);
    case _ =>
  }

  /** The session is torn down exactly by an event of a client still connected that is a hang-up without input, or whose
      reads come to the end of the stream without a pause. */
  lemma TornDownIff(s: Session, step: Step)
    requires Reachable(s) && Enabled(s, step)
    ensures var t := Next(s, step);
      && (t.torn <==> step.DownEvent? && s.down.state == T.Connected && EndsDown(s, step))
      && (t.torn ==> !t.upRef && !t.upReady && t.pendingUp == "" && !t.upPaused && !t.downPaused
                     && t.down.state == T.Disconnecting && t.down.chan.events == C.NOTHING)
  {
    ReachableHolds(s);
    if step.DownEvent? {
      DownEventCarries(s, step);
      if Next(s, step).torn { EventTearsDown(s, step); }
    } else {
      OtherStepsTearNothing(s, step);
    }
  }

  /** A backend that is connected to only after the session was torn down is not adopted and gets nothing. */
  lemma TooLateToAdopt(s: Session, w: T.WriteResult)
    requires s.torn
    ensures var t := UpstreamConnected(s, w);
      t == s.(up := t.up) && t.up.sent == "" && t.up.output == "" && !t.up.highCallback && !t.up.completeCallback
  {
  }

  /** A session that was torn down throws away what still arrives, and no callback pauses or resumes anything. */
  lemma TornIsInert(s: Session, w: T.WriteResult)
    requires s.torn
    ensures OnUpstreamData(s, w) == (if s.up.input.content == "" then s else EmptiedUp(s))
    ensures OnDownstreamData(s, w) == (if s.down.input.content == "" then s else EmptiedDown(s))
    ensures DownHighWater(s) == s && UpHighWater(s) == s && DownWriteComplete(s) == s && UpWriteComplete(s) == s
    ensures var t := CloseUp(s); t.down == s.down && t.upRef == s.upRef && t.upReady == s.upReady
  {
  }

  /** Some event of the run ends the backend. */
  ghost predicate BackendEnds(s: Session, steps: seq<Step>)
    requires IsRun(s, steps)
    decreases steps
  {
    steps != [] &&
    ((steps[0].UpEvent? && s.upRef && EndsUp(s, steps[0])) || BackendEnds(Next(s, steps[0]), steps[1..]))
  }

  lemma DownEventKeepsRef(s: Session, step: Step)
    requires Inv(s) && Enabled(s, step) && step.DownEvent? && !Next(s, step).torn
    ensures Next(s, step).upRef == s.upRef
  {
    var e, a := s.downEvent.value, s.(downEvent := None);
    var t := BeforeWriteDown(a, e, step.script, step.closed);
    BeforeWriteDownCarries(s, step);
    TornStaysTorn(t, step.w);
    assert WriteDown(t, step.w).upRef == t.upRef;
  }

  lemma FunctorKeepsRef(s: Session, f: Functor)
    ensures RunFunctor(s, f).upRef == s.upRef
  {
  }

  lemma BridgedStep(s: Session, step: Step)
    requires Inv(s) && Enabled(s, step) && Bridged(s) && !Next(s, step).torn
    ensures Next(s, step).upRef <==> !(step.UpEvent? && EndsUp(s, step))
  {
    match step
    case UpEvent(_, _, _) => UpEventCarries(s, step);
    case DownEvent(_, _, _) => DownEventKeepsRef(s, step);
    case NextFunctor => FunctorKeepsRef(s.(batch := s.batch[1..]), s.batch[0]);
    case _ =>
  }

  lemma WaitingStep(s: Session, step: Step)
    requires Inv(s) && Enabled(s, step) && Waiting(s) && !s.torn && !Next(s, step).torn
    ensures !Ended(Next(s, step))
  {
    match step
    case DownEvent(_, _, _) => DownEventCarries(s, step); WaitingDownEvent(s, step);
    case NextFunctor => WaitingFunctor(s.(batch := s.batch[1..]), s.batch[0]);
    case ConnectEvent(w) => ConnectStarts(s.(connEvent := false), w);
    case _ =>
  }

  /** Until the backend is connected the state of its connection does not change. */
  lemma WaitingDownEvent(s: Session, step: Step)
    requires Inv(s) && Enabled(s, step) && Waiting(s) && step.DownEvent? && !Next(s, step).torn
    ensures Next(s, step).up == s.up
  {
    HeldReads(s.(downEvent := None), step.script, step.closed);
  }

  lemma {:induction false} HeldReads(s: Session, script: seq<Read>, closed: bool)
    requires !s.upRef
    ensures var t := ReadDown(s, script, closed); t.up == s.up
    decreases script
  {
    if script != [] {
      HeldReadLeavesUp(s, script[0]);
      ReadDownOnceKeepsRefs(s, script[0]);
      HeldReads(ReadDownOnce(s, script[0]), script[1..], closed);
    }
  }

  lemma HeldReadLeavesUp(s: Session, r: Read)
    requires !s.upRef
    ensures ReadDownOnce(s, r).up == s.up
  {
  }

  lemma WaitingFunctor(s: Session, f: Functor)
    requires Waiting(s) && f != DestroyUp
    ensures RunFunctor(s, f).up.state == T.Connecting
  {
  }

  lemma ConnectStarts(s: Session, w: T.WriteResult)
    requires !s.torn
    ensures UpstreamConnected(s, w).up.state == T.Connected
  {
    if s.pendingUp != "" { StateOfSend(OPENED, s.pendingUp, w); }
  }

  lemma StateOfSend(c: T.Conn, data: Bytes, w: T.WriteResult)
    ensures T.SendInLoop(c, data, w).conn.state == c.state
  {
  }

  lemma EndsIff(s: Session, step: Step)
    requires Inv(s) && Enabled(s, step) && !Next(s, step).torn
    ensures Ended(Next(s, step)) <==> Ended(s) || (step.UpEvent? && s.upRef && EndsUp(s, step))
  {
    StepKeeps(s, step);
    if Ended(s) {
      ProxyStuck.EndedStep(s, step);
    } else if Bridged(s) {
      BridgedStep(s, step);
      if step.UpEvent? { UpEventCarries(s, step); }
    } else {
      WaitingStep(s, step);
    }
  }

  lemma {:induction false} RunEndsIff(s: Session, steps: seq<Step>)
    requires Inv(s) && IsRun(s, steps) && !After(s, steps).torn
    ensures Ended(After(s, steps)) <==> Ended(s) || BackendEnds(s, steps)
    decreases steps
  {
    if steps != [] {
      NotTornBefore(Next(s, steps[0]), steps[1..]);
      EndsIff(s, steps[0]);
      StepKeeps(s, steps[0]);
      RunEndsIff(Next(s, steps[0]), steps[1..]);
    }
  }

  // ---------- The backend's descriptor ----------

  /** Of a backend that is gone, either the destruction is still queued, or the descriptor is closed. */
  ghost predicate Released(s: Session) {
    Ended(s) ==> Queued(s, DestroyUp) || (s.up.closed && s.up.state == T.Disconnected)
  }

  lemma {:induction false} HeldReadsKeepQueue(s: Session, script: seq<Read>, closed: bool)
    requires !s.upRef
    ensures var t := ReadDown(s, script, closed); t.pending == s.pending && t.batch == s.batch
    decreases script
  {
    if script != [] {
      HeldReadKeepsQueue(s, script[0]);
      ReadDownOnceKeepsRefs(s, script[0]);
      HeldReadsKeepQueue(ReadDownOnce(s, script[0]), script[1..], closed);
    }
  }

  lemma HeldReadKeepsQueue(s: Session, r: Read)
    requires !s.upRef
    ensures var t := ReadDownOnce(s, r); t.pending == s.pending && t.batch == s.batch
  {
  }

  lemma WriteKeepsQueue(s: Session, w: T.WriteResult)
    ensures WriteDown(s, w).batch == s.batch && s.pending <= WriteDown(s, w).pending
  {
  }

  lemma EndedDownEvent(s: Session, step: Step)
    requires Inv(s) && Enabled(s, step) && step.DownEvent? && Ended(s)
    ensures var t := Next(s, step);
      t.up == s.up && t.batch == s.batch && forall f :: f in s.pending ==> f in t.pending
  {
    var e, a := s.downEvent.value, s.(downEvent := None);
    ProxyStuck.HandleDownEnded(a, e, step.script, step.closed, step.w);
    HeldReadsKeepQueue(a, step.script, step.closed);
    WriteKeepsQueue(BeforeWriteDown(a, e, step.script, step.closed), step.w);
  }

  lemma EndedFunctor(s: Session, f: Functor)
    requires !s.upRef
    ensures var t := RunFunctor(s, f);
      && t.batch == s.batch && t.pending == s.pending
      && (f == DestroyUp ==> t.up.closed && t.up.state == T.Disconnected)
      && (f != DestroyUp ==> t.up == s.up)
  {
  }

  lemma EndedReleases(s: Session, step: Step)
    requires Inv(s) && Enabled(s, step) && Ended(s) && Released(s)
    ensures Released(Next(s, step))
  {
    match step
    case UpEvent(_, _, _) => EndedUpEvent(s, step);
    case DownEvent(_, _, _) => EndedDownEvent(s, step);
    case NextFunctor =>
      assert s.batch == [s.batch[0]] + s.batch[1..];
      EndedFunctor(s.(batch := s.batch[1..]), s.batch[0]);
    case _ =>
  }

  lemma {:induction false} RunReleases(s: Session, steps: seq<Step>)
    requires Inv(s) && Released(s) && IsRun(s, steps) && !After(s, steps).torn
    ensures Released(After(s, steps))
    decreases steps
  {
    if steps != [] {
      var step := steps[0];
      NotTornBefore(Next(s, step), steps[1..]);
      StepKeeps(s, step);
      EndsIff(s, step);
      if Ended(s) {
        EndedReleases(s, step);
      } else if Ended(Next(s, step)) {
        UpEventCarries(s, step);
      }
      RunReleases(Next(s, step), steps[1..]);
    }
  }

  /** Once some event ended the backend, its destruction is queued until its descriptor is closed. */
  lemma BackendIsReleased(steps: seq<Step>)
    requires IsRun(START, steps) && !After(START, steps).torn && BackendEnds(START, steps)
    ensures var s := After(START, steps); Queued(s, DestroyUp) || (s.up.closed && s.up.state == T.Disconnected)
  {
    StartHolds();
    RunEndsIff(START, steps);
    RunReleases(START, steps);
  }

  /** The write side of the client is shut exactly when some event of the run ended the backend and the client's kernel
      has taken everything that waited. */
  lemma HalfClosedIff(steps: seq<Step>)
    requires IsRun(START, steps) && !After(START, steps).torn
    ensures After(START, steps).down.halfClosed
      <==> BackendEnds(START, steps) && T.WireRun(NOTHING, ClientRun(START, steps)).waiting == ""
  {
    StartHolds();
    RunKeeps(START, steps);
    RunEndsIff(START, steps);
    HalfCloseAfterLastByte(After(START, steps));
    UpstreamIsWire(steps);
  }
}
