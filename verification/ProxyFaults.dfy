/** Which schedules of the kernel keep every byte of the proxied streams: the failing writes, read off the run. */
module ProxyFaults {
  import opened Prelude
  import B = BufferSpec
  import C = ChannelSpec
  import T = TcpConnectionSpec
  import opened ProxySpec
  import opened ProxyTheorems

  // ---------- Failing writes ----------

  /** HandleRead of the backend meets a write to the client that the kernel refuses. A write is tried only when the
      client has no backlog. */
  predicate ReadUpFaults(s: Session, script: seq<Read>)
    decreases script
  {
    script != [] &&
    ((s.down.output == "" && script[0].w.Failed?) ||
     (ReadUpOnce(s, script[0]).up.IsReading() && ReadUpFaults(ReadUpOnce(s, script[0]), script[1..])))
  }

  predicate ReadDownFaults(s: Session, script: seq<Read>)
    decreases script
  {
    script != [] &&
    ((s.upReady && s.upRef && s.up.output == "" && script[0].w.Failed?) ||
     (ReadDownOnce(s, script[0]).down.IsReading() && ReadDownFaults(ReadDownOnce(s, script[0]), script[1..])))
  }

  /** The step has a failing write to the client. */
  predicate DownFault(s: Session, step: Step) {
    && step.UpEvent? && s.upEvent.Some? && s.upEvent.value.Readable()
    && ReadUpFaults(s.(upEvent := None), step.script)
  }

  /** The step has a failing write to the backend: of bytes just read, or of those held for it. */
  predicate UpFault(s: Session, step: Step) {
    || (step.DownEvent? && s.downEvent.Some? && s.downEvent.value.Readable()
        && ReadDownFaults(s.(downEvent := None), step.script))
    || (step.ConnectEvent? && s.pendingUp != "" && step.w.Failed?)
  }

  ghost predicate DownFaulty(s: Session, steps: seq<Step>)
    requires IsRun(s, steps)
    decreases steps
  {
    steps != [] && (DownFault(s, steps[0]) || DownFaulty(Next(s, steps[0]), steps[1..]))
  }

  ghost predicate UpFaulty(s: Session, steps: seq<Step>)
    requires IsRun(s, steps)
    decreases steps
  {
    steps != [] && (UpFault(s, steps[0]) || UpFaulty(Next(s, steps[0]), steps[1..]))
  }

  // ---------- They are what drops bytes ----------

  /** From c to d bytes were dropped exactly when fault. */
  predicate Drops(c: T.Conn, d: T.Conn, fault: bool) {
    d.dropped >= c.dropped && (d.dropped > c.dropped <==> fault)
  }

  lemma ReadUpOnceDrops(s: Session, r: Read)
    requires !s.torn && Inv(s) && s.upEvent.None? && Bridged(s) && s.up.IsReading()
    ensures Drops(s.down, ReadUpOnce(s, r).down, s.down.output == "" && r.w.Failed?)
  {
    var data := T.Receive(s.up, r.offer).input.content;
    B.ReadIntoDrained(s.up.input, r.offer);
    T.SendConserves(s.down, data, r.w);
    T.SendDropsIff(s.down, data, r.w);
    assert ReadUpOnce(s, r).down == T.SendInLoop(s.down, data, r.w).conn;
  }

  lemma {:induction false} ReadUpDrops(s: Session, script: seq<Read>, closed: bool)
    requires !s.torn && Inv(s) && s.upEvent.None? && s.phase == Handling && Bridged(s) && s.up.IsReading()
    ensures Drops(s.down, ReadUp(s, script, closed).down, ReadUpFaults(s, script))
    decreases script
  {
    if script != [] {
      var t := ReadUpOnce(s, script[0]);
      ReadUpOnceKeeps(s, script[0]);
      ReadUpOnceDrops(s, script[0]);
      if t.up.IsReading() { ReadUpDrops(t, script[1..], closed); }
    }
  }

  lemma ReadDownOnceDrops(s: Session, r: Read)
    requires !s.torn && Inv(s)
    ensures Drops(s.up, ReadDownOnce(s, r).up, s.upReady && s.upRef && s.up.output == "" && r.w.Failed?)
  {
    var data := T.Receive(s.down, r.offer).input.content;
    B.ReadIntoDrained(s.down.input, r.offer);
    if Bridged(s) {
      T.SendConserves(s.up, data, r.w);
      T.SendDropsIff(s.up, data, r.w);
      assert ReadDownOnce(s, r).up == T.SendInLoop(s.up, data, r.w).conn;
    }
  }

  lemma {:induction false} ReadDownDrops(s: Session, script: seq<Read>, closed: bool)
    requires !s.torn && Inv(s)
    ensures Drops(s.up, ReadDown(s, script, closed).up, ReadDownFaults(s, script))
    decreases script
  {
    if script != [] {
      var t := ReadDownOnce(s, script[0]);
      ReadDownOnceKeeps(s, script[0]);
      ReadDownOnceDrops(s, script[0]);
      if t.down.IsReading() { ReadDownDrops(t, script[1..], closed); }
    }
  }

  // The other direction of each handler drops nothing.

  lemma {:induction false} ReadUpSparesUp(s: Session, script: seq<Read>, closed: bool)
    ensures ReadUp(s, script, closed).up.dropped == s.up.dropped
    decreases script
  {
    if script != [] {
      var t := ReadUpOnce(s, script[0]);
      ReadUpOnceSparesUp(s, script[0]);
      if t.up.IsReading() { ReadUpSparesUp(t, script[1..], closed); }
    }
  }

  lemma SendDownSparesUp(s: Session, o: T.Outcome)
    ensures AfterSendDown(s, o).up.dropped == s.up.dropped
  {
  }

  lemma ReadUpOnceSparesUp(s: Session, r: Read)
    ensures ReadUpOnce(s, r).up.dropped == s.up.dropped
  {
    var t := s.(up := T.Receive(s.up, r.offer));
    SendDownSparesUp(t, T.SendInLoop(t.down, t.up.input.content, r.w));
  }

  lemma SendUpSparesDown(s: Session, o: T.Outcome)
    ensures AfterSendUp(s, o).down.dropped == s.down.dropped
  {
  }

  lemma ReadDownOnceSparesDown(s: Session, r: Read)
    ensures ReadDownOnce(s, r).down.dropped == s.down.dropped
  {
    var t := s.(down := T.Receive(s.down, r.offer));
    SendUpSparesDown(t, T.SendInLoop(t.up, t.down.input.content, r.w));
  }

  lemma {:induction false} ReadDownSparesDown(s: Session, script: seq<Read>, closed: bool)
    ensures ReadDown(s, script, closed).down.dropped == s.down.dropped
    decreases script
  {
    if script != [] {
      var t := ReadDownOnce(s, script[0]);
      ReadDownOnceSparesDown(s, script[0]);
      if t.down.IsReading() { ReadDownSparesDown(t, script[1..], closed); }
    }
  }

  lemma WritesDropNothing(s: Session, w: T.WriteResult)
    ensures WriteUp(s, w).up.dropped == s.up.dropped && WriteUp(s, w).down == s.down
    ensures WriteDown(s, w).down.dropped == s.down.dropped && WriteDown(s, w).up == s.up
  {
    T.WriteConserves(s.up, w);
    T.WriteConserves(s.down, w);
  }

  /** What an event of the backend does before its write. */
  function BeforeWriteUp(s: Session, e: C.Revents, script: seq<Read>, closed: bool): Session {
    var a := if e.hup && !e.input then CloseUp(s) else s;
    if e.Readable() then ReadUp(a, script, closed) else a
  }

  function BeforeWriteDown(s: Session, e: C.Revents, script: seq<Read>, closed: bool): Session {
    var a := if e.hup && !e.input then CloseDown(s) else s;
    if e.Readable() then ReadDown(a, script, closed) else a
  }

  lemma UpReadsDrop(s: Session, e: C.Revents, script: seq<Read>, closed: bool)
    requires !s.torn && Inv(s) && s.upEvent.None? && s.phase == Handling && !Waiting(s)
    requires Asked(e) && (e.input ==> s.up.IsReading())
    ensures var t := BeforeWriteUp(s, e, script, closed);
      Drops(s.down, t.down, e.Readable() && ReadUpFaults(s, script)) && Drops(s.up, t.up, false)
  {
    if e.Readable() {
      assert Bridged(s);
      ReadUpDrops(s, script, closed);
      ReadUpSparesUp(s, script, closed);
    }
  }

  lemma DownReadsDrop(s: Session, e: C.Revents, script: seq<Read>, closed: bool)
    requires !s.torn && Inv(s) && Asked(e)
    ensures var t := BeforeWriteDown(s, e, script, closed);
      Drops(s.up, t.up, e.Readable() && ReadDownFaults(s, script)) && Drops(s.down, t.down, false)
  {
    if e.Readable() {
      ReadDownDrops(s, script, closed);
      ReadDownSparesDown(s, script, closed);
    }
  }

  lemma UpEventDrops(s: Session, step: Step)
    requires Inv(s) && Enabled(s, step) && step.UpEvent?
    ensures Drops(s.down, Next(s, step).down, DownFault(s, step)) && Drops(s.up, Next(s, step).up, false)
  {
    var e, a := s.upEvent.value, s.(upEvent := None);
    UpReadsDrop(a, e, step.script, step.closed);
    var t := BeforeWriteUp(a, e, step.script, step.closed);
    WritesDropNothing(t, step.w);
    assert Next(s, step) == if e.output then WriteUp(t, step.w) else t;
  }

  lemma DownEventDrops(s: Session, step: Step)
    requires Inv(s) && Enabled(s, step) && step.DownEvent?
    ensures Drops(s.up, Next(s, step).up, UpFault(s, step)) && Drops(s.down, Next(s, step).down, false)
  {
    var e, a := s.downEvent.value, s.(downEvent := None);
    DownReadsDrop(a, e, step.script, step.closed);
    var t := BeforeWriteDown(a, e, step.script, step.closed);
    WritesDropNothing(t, step.w);
    assert Next(s, step) == if e.output then WriteDown(t, step.w) else t;
  }

  lemma ConnectDrops(s: Session, step: Step)
    requires Inv(s) && Enabled(s, step) && step.ConnectEvent?
    ensures Drops(s.up, Next(s, step).up, UpFault(s, step)) && Drops(s.down, Next(s, step).down, false)
  {
    if s.pendingUp != "" {
      T.SendConserves(OPENED, s.pendingUp, step.w);
      T.SendDropsIff(OPENED, s.pendingUp, step.w);
    }
  }

  lemma StepDrops(s: Session, step: Step)
    requires Inv(s) && Enabled(s, step)
    ensures Drops(s.down, Next(s, step).down, DownFault(s, step))
    ensures Drops(s.up, Next(s, step).up, UpFault(s, step))
  {
    match step
    case UpEvent(_, _, _) => UpEventDrops(s, step);
    case DownEvent(_, _, _) => DownEventDrops(s, step);
    case ConnectEvent(_) => ConnectDrops(s, step);
    case _ =>
  }

  lemma {:induction false} RunDrops(s: Session, steps: seq<Step>)
    requires Inv(s) && IsRun(s, steps)
    ensures Drops(s.down, After(s, steps).down, DownFaulty(s, steps))
    ensures Drops(s.up, After(s, steps).up, UpFaulty(s, steps))
    decreases steps
  {
    if steps != [] {
      StepKeeps(s, steps[0]);
      StepDrops(s, steps[0]);
      RunDrops(Next(s, steps[0]), steps[1..]);
    }
  }

  // ---------- The streams ----------

  /** Backend to client, over any run: the bytes read are the bytes the client's kernel took followed by the bytes that
      wait, in order, exactly when no write to the client fails in the run; partial writes and EAGAIN never matter. */
  lemma UpstreamBytesPreservedIff(steps: seq<Step>)
    requires IsRun(START, steps) && !After(START, steps).torn
    ensures var s := After(START, steps);
      s.up.received == s.down.sent + s.down.output <==> !DownFaulty(START, steps)
  {
    StartHolds();
    RunDrops(START, steps);
    UpstreamBytesUnlessDropped(After(START, steps));
  }

  /** Client to backend, with what is held until the backend is connected. */
  lemma DownstreamBytesPreservedIff(steps: seq<Step>)
    requires IsRun(START, steps) && !After(START, steps).torn
    ensures var s := After(START, steps);
      && (s.down.received == s.up.sent + s.up.output + s.pendingUp <==> !UpFaulty(START, steps))
      && (s.upRef ==> s.pendingUp == "")
  {
    StartHolds();
    RunDrops(START, steps);
    DownstreamBytesUnlessDropped(After(START, steps));
  }

  /** Once the write side of the client is shut it has got every byte of the backend, exactly when no write failed. */
  lemma HalfClosedMeansAllWritten(steps: seq<Step>)
    requires IsRun(START, steps) && !After(START, steps).torn && After(START, steps).down.halfClosed
    ensures After(START, steps).down.sent == After(START, steps).up.received <==> !DownFaulty(START, steps)
  {
    UpstreamBytesPreservedIff(steps);
    HalfCloseAfterLastByte(After(START, steps));
    var s := After(START, steps);
    assert s.down.sent + "" == s.down.sent;
  }
}
