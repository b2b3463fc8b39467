/** A pause that is never lifted: the backend closes while bytes for it still wait. */
module ProxyStuck {
  import opened Prelude
  import B = BufferSpec
  import C = ChannelSpec
  import T = TcpConnectionSpec
  import opened ProxySpec
  import opened ProxyTheorems

  /** The backend is gone, bytes for it are left over, and the client is paused because of them. */
  ghost predicate Stuck(s: Session) {
    !s.torn && Ended(s) && s.downPaused && s.up.output != ""
  }

  // ---------- Once the backend is gone ----------

  /** Reading the client only adds to what is held; its end is not handled any more. */
  lemma {:induction false} ReadDownEnded(s: Session, script: seq<Read>, closed: bool)
    requires !s.torn && !s.upRef && s.down.state == T.Disconnecting
    ensures var t := ReadDown(s, script, closed);
      !t.torn && t.up == s.up && !t.upRef && t.down.state == T.Disconnecting
    decreases script
  {
    if script != [] {
      var t := ReadDownOnce(s, script[0]);
      assert !t.torn && t.up == s.up && !t.upRef && t.down.state == T.Disconnecting;
      if t.down.IsReading() { ReadDownEnded(t, script[1..], closed); }
    }
  }

  lemma HandleDownEnded(s: Session, e: C.Revents, script: seq<Read>, closed: bool, w: T.WriteResult)
    requires !s.torn && !s.upRef && s.down.state == T.Disconnecting
    ensures var t := HandleDown(s, e, script, closed, w); !t.torn && t.up == s.up
  {
    ReadDownEnded(s, script, closed);
  }

  lemma HandleUpEnded(s: Session, e: C.Revents, script: seq<Read>, closed: bool, w: T.WriteResult)
    requires !s.torn && Ended(s) && Asked(e) && !e.input
    ensures HandleUp(s, e, script, closed, w) == s
  {
    assert CloseUp(s) == s;
    assert WriteUp(s, w) == s;
  }

  lemma EndedFunctor(s: Session, f: Functor)
    requires !s.torn && !s.upRef && (s.up.state == T.Disconnecting || s.up.state == T.Disconnected)
    ensures var t := RunFunctor(s, f);
      && !t.torn && t.up.output == s.up.output
      && (t.up.state == T.Disconnecting || t.up.state == T.Disconnected)
  {
  }

  /** The session stays as it is: no event tears it down, and the left-over bytes stay. */
  lemma EndedStays(s: Session, step: Step)
    requires Inv(s) && !s.torn && Ended(s) && Enabled(s, step)
    ensures var t := Next(s, step);
      && !t.torn && t.up.output == s.up.output
      && (t.up.state == T.Disconnecting || t.up.state == T.Disconnected)
  {
    match step
    case UpEvent(script, closed, w) =>
      HandleUpEnded(s.(upEvent := None), s.upEvent.value, script, closed, w);
    case DownEvent(script, closed, w) =>
      HandleDownEnded(s.(downEvent := None), s.downEvent.value, script, closed, w);
    case NextFunctor =>
      EndedFunctor(s.(batch := s.batch[1..]), s.batch[0]);
    case _ =>
  }

  lemma EndedStep(s: Session, step: Step)
    requires Inv(s) && !s.torn && Ended(s) && Enabled(s, step)
    ensures var t := Next(s, step); Inv(t) && !t.torn && Ended(t) && t.up.output == s.up.output
  {
    StepKeeps(s, step);
    EndedStays(s, step);
  }

  /** Over every run a stuck client stays paused, and the kernel is never asked for its input again. */
  lemma {:induction false} StuckForever(s: Session, steps: seq<Step>)
    requires Inv(s) && Stuck(s) && IsRun(s, steps)
    ensures var t := After(s, steps);
      Inv(t) && Stuck(t) && !t.down.IsReading() && t.down.chan.interest == Some(t.down.chan.events)
    decreases steps
  {
    if steps != [] {
      EndedStep(s, steps[0]);
      DownResumesOnlyWhenDrained(s, steps[0]);
      StuckForever(Next(s, steps[0]), steps[1..]);
    }
  }

  /** Some run reads the client again. */
  ghost predicate CanBeReadAgain(s: Session) {
    exists steps :: IsRun(s, steps) && !After(s, steps).torn && After(s, steps).down.IsReading()
  }

  lemma LeftoverFreeIsLifted(s: Session) returns (steps: seq<Step>)
    requires Reachable(s) && !s.torn && Ended(s) && s.up.output == "" && s.phase == Polling
    ensures IsRun(s, steps) && !After(s, steps).torn && After(s, steps).down.IsReading()
  {
    ReachableHolds(s);
    var poll := Poll(None, None, false);
    steps := [];
    EndedStep(s, poll);
    Extend(s, steps, poll);
    steps := [poll];
    var a := After(s, steps);
    EndedStep(a, SwapFunctors);
    Extend(s, steps, SwapFunctors);
    steps := steps + [SwapFunctors];
    var rest := BatchLiftsDown(After(s, steps));
    RunConcat(s, steps, rest);
    steps := steps + rest;
  }

  /** After the backend closed, a paused client can be read again exactly when no bytes for the backend are left over. */
  lemma ReadAgainIff(s: Session)
    requires Reachable(s) && !s.torn && Ended(s) && s.downPaused && s.phase == Polling
    ensures CanBeReadAgain(s) <==> s.up.output == ""
  {
    ReachableHolds(s);
    if s.up.output == "" {
      var steps := LeftoverFreeIsLifted(s);
    } else {
      forall steps | IsRun(s, steps) ensures !After(s, steps).down.IsReading() { StuckForever(s, steps); }
    }
  }

  // ---------- It happens ----------

  // One byte from the client.
  const BYTE: Read := Read("x", T.WouldBlock)

  function Bytes_(n: nat): seq<Read> {
    if n == 0 then [] else [BYTE] + Bytes_(n - 1)
  }

  predicate SameRound(s: Session, t: Session) {
    && t.phase == s.phase && t.pending == s.pending && t.batch == s.batch
    && t.upEvent == s.upEvent && t.downEvent == s.downEvent && t.connEvent == s.connEvent
  }

  /** While the backend is being connected to, every byte of the client is held. */
  lemma {:induction false} ClientBytesAreHeld(s: Session, n: nat)
    requires !s.torn && Inv(s) && Waiting(s)
    ensures var t := ReadDown(s, Bytes_(n), false);
      && Inv(t) && Waiting(t) && !t.torn && |t.pendingUp| == |s.pendingUp| + n
      && SameRound(s, t)
    decreases n
  {
    if n > 0 {
      var script := Bytes_(n);
      OneByteIsHeld(s);
      assert script[0] == BYTE && script[1..] == Bytes_(n - 1);
      ClientBytesAreHeld(ReadDownOnce(s, BYTE), n - 1);
    }
  }

  lemma OneByteIsHeld(s: Session)
    requires !s.torn && Inv(s) && Waiting(s)
    ensures var t := ReadDownOnce(s, BYTE);
      && Inv(t) && Waiting(t) && !t.torn && |t.pendingUp| == |s.pendingUp| + 1 && t.down.IsReading()
      && SameRound(s, t)
  {
    ReadDownOnceKeeps(s, BYTE);
    B.ReadIntoDrained(s.down.input, BYTE.offer);
    assert B.Taken(s.down.input, "x") == "x";
  }

  const INPUT := C.Revents(false, false, true, false, false, false)
  const HANGUP := C.Revents(true, false, false, false, false, false)

  /** Handling the last event of a round, with no functor queued. */
  ghost predicate LastEvents(s: Session) {
    !s.torn && Inv(s) && s.phase == Handling && s.upEvent.None? && s.downEvent.None? && s.pending == []
  }

  const CLIENT_SENDS := Poll(None, Some(INPUT), true)
  const HELD := DownEvent(Bytes_(MARK), false, T.WouldBlock)
  const BACKEND_ACCEPTS := ConnectEvent(T.WouldBlock)
  const BACKEND_HANGS_UP := Poll(Some(HANGUP), None, false)
  const CLOSED := UpEvent([], false, T.WouldBlock)

  lemma RunOfTwo(s: Session, a: Step, b: Step)
    requires Enabled(s, a) && Enabled(Next(s, a), b)
    ensures IsRun(s, [a, b]) && After(s, [a, b]) == Next(Next(s, a), b)
  {
    Extend(s, [], a);
    Extend(s, [a], b);
    assert [] + [a] == [a] && [a] + [b] == [a, b];
  }

  lemma HeldUntilConnected() returns (t: Session)
    ensures IsRun(START, [CLIENT_SENDS, HELD]) && After(START, [CLIENT_SENDS, HELD]) == t
    ensures LastEvents(t) && Waiting(t) && t.connEvent && |t.pendingUp| == MARK
  {
    StartHolds();
    StepKeeps(START, CLIENT_SENDS);
    var a := Next(START, CLIENT_SENDS);
    ClientBytesAreHeld(a.(downEvent := None), MARK);
    t := Next(a, HELD);
    RunOfTwo(START, CLIENT_SENDS, HELD);
  }

  lemma AcceptedButNotWritten(s: Session)
    requires LastEvents(s) && Waiting(s) && s.connEvent && |s.pendingUp| == MARK
    ensures var t := Next(s, BACKEND_ACCEPTS);
      LastEvents(t) && Bridged(t) && !t.connEvent && t.downPaused && t.up.output != ""
  {
    StepKeeps(s, BACKEND_ACCEPTS);
  }

  lemma ClosedWithLeftOvers(s: Session)
    requires !s.torn && Inv(s) && Bridged(s) && s.phase == Polling && s.downPaused && s.up.output != ""
    ensures Enabled(s, BACKEND_HANGS_UP) && Enabled(Next(s, BACKEND_HANGS_UP), CLOSED)
    ensures Stuck(Next(Next(s, BACKEND_HANGS_UP), CLOSED))
  {
    StepKeeps(s, BACKEND_HANGS_UP);
    var a := Next(s, BACKEND_HANGS_UP);
    CloseUpKeeps(a.(upEvent := None));
    assert Next(a, CLOSED) == CloseUp(a.(upEvent := None));
  }

  /** A client that sends a mark's worth of bytes, a backend that accepts the connection but takes no byte, and then
      hangs up. */
  lemma StuckIsReached() returns (steps: seq<Step>)
    ensures IsRun(START, steps) && Stuck(After(START, steps))
  {
    var a := HeldUntilConnected();
    steps := [CLIENT_SENDS, HELD];
    Extend(START, steps, BACKEND_ACCEPTS);
    steps := steps + [BACKEND_ACCEPTS];
    AcceptedButNotWritten(a);
    var b := After(START, steps);
    StepKeeps(b, SwapFunctors);
    Extend(START, steps, SwapFunctors);
    steps := steps + [SwapFunctors];
    var c := After(START, steps);
    StepKeeps(c, EndFunctors);
    Extend(START, steps, EndFunctors);
    steps := steps + [EndFunctors];
    var d := After(START, steps);
    assert Bridged(d);
    ClosedWithLeftOvers(d);
    Extend(START, steps, BACKEND_HANGS_UP);
    steps := steps + [BACKEND_HANGS_UP];
    Extend(START, steps, CLOSED);
    steps := steps + [CLOSED];
  }
}
