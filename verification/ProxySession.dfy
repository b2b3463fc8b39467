/** The L4 proxy: two connections and a session on one loop thread (src/proxy/ProxySession.cpp). */
module ProxySpec {
  import opened Prelude
  import B = BufferSpec
  import C = ChannelSpec
  import T = TcpConnectionSpec

  // kProxyHighWaterMark
  const MARK: nat := 1024 * 1024

  datatype Side = Up | Down

  // What waits in pending_functors_: a write-complete notice of one side, or ConnectionDestroyed of the upstream.
  datatype Functor = WriteComplete(side: Side) | DestroyUp

  // Where EventLoop::Loop stands: about to call epoll_wait, handling its events, or running functors.
  datatype Phase = Polling | Handling | Running

  /** up is the upstream connection object (T.NEW until it is made); upRef says that up_conn_ points to it.
      pending and batch are pending_functors_ and the functors swapped out of it; upEvent, downEvent and
      connEvent are the events of the current epoll_wait that are still to be handled. */
  datatype Session = Session(
    down: T.Conn, up: T.Conn, upRef: bool, upReady: bool, pendingUp: Bytes,
    upPaused: bool, downPaused: bool, torn: bool,
    pending: seq<Functor>, batch: seq<Functor>, phase: Phase,
    upEvent: Option<C.Revents>, downEvent: Option<C.Revents>, connEvent: bool)

  // The bytes the kernel has for one readv (never none: that is the end of the stream), and what
  // the other side's kernel says to the write that follows.
  type Offer = b: Bytes | b != "" witness "x"
  datatype Read = Read(offer: Offer, w: T.WriteResult)

  // A connection just established, with the flow-control callbacks installed.
  const OPENED := T.SetWriteCompleteCallback(T.SetHighWaterMarkCallback(T.ConnectionEstablished(T.NEW), MARK))

  /** After Start: the downstream connection is up, the upstream is not made yet. */
  const START :=
    Session(OPENED, T.NEW, false, false, "", false, false, false, [], [], Polling, None, None, false)

  function Queue(s: Session, complete: bool, side: Side): Session {
    if complete then s.(pending := s.pending + [WriteComplete(side)]) else s
  }

  // ---------- Callbacks ----------

  /** The downstream backlog crossed the mark: stop reading the upstream. */
  function DownHighWater(s: Session): Session {
    if !s.torn && s.upRef && !s.upPaused then
      s.(up := T.DisableReading(s.up), upPaused := true)
    else s
  }

  function UpHighWater(s: Session): Session {
    if !s.torn && !s.downPaused then
      s.(down := T.DisableReading(s.down), downPaused := true)
    else s
  }

  /** The downstream drained: read the upstream again. */
  function DownWriteComplete(s: Session): Session {
    if !s.torn && s.upRef && s.upPaused then
      s.(up := T.EnableReading(s.up), upPaused := false)
    else s
  }

  function UpWriteComplete(s: Session): Session {
    if !s.torn && s.downPaused then
      s.(down := T.EnableReading(s.down), downPaused := false)
    else s
  }

  /** What follows SendInLoop: the write-complete functor is queued, the high-water callback runs at once. */
  function AfterSendDown(s: Session, o: T.Outcome): Session {
    var t := Queue(s.(down := o.conn), o.complete, Down);
    if o.high then DownHighWater(t) else t
  }

  function AfterSendUp(s: Session, o: T.Outcome): Session {
    var t := Queue(s.(up := o.conn), o.complete, Up);
    if o.high then UpHighWater(t) else t
  }

  function SendDown(s: Session, data: Bytes, w: T.WriteResult): Session {
    AfterSendDown(s, T.SendInLoop(s.down, data, w))
  }

  function SendUp(s: Session, data: Bytes, w: T.WriteResult): Session {
    AfterSendUp(s, T.SendInLoop(s.up, data, w))
  }

  function OnUpstreamData(s: Session, w: T.WriteResult): Session {
    if s.up.input.content == "" then s
    else
      var t := if s.torn then s else SendDown(s, s.up.input.content, w);
      t.(up := t.up.(input := B.RetrieveAll(t.up.input)))
  }

  function OnDownstreamData(s: Session, w: T.WriteResult): Session {
    if s.down.input.content == "" then s
    else
      var t := if s.torn then s
               else if s.upReady && s.upRef then SendUp(s, s.down.input.content, w)
               else s.(pendingUp := s.pendingUp + s.down.input.content);
      t.(down := t.down.(input := B.RetrieveAll(t.down.input)))
  }

  /** TcpClient::NewConnection and the connected half of OnUpstreamConnection, which a session that is torn down
      leaves at once. */
  function UpstreamConnected(s: Session, w: T.WriteResult): Session {
    if s.torn then s.(up := T.ConnectionEstablished(T.NEW))
    else Bridge(s, w)
  }

  function Bridge(s: Session, w: T.WriteResult): Session {
    var t := s.(up := OPENED, upRef := true, upReady := true);
    if t.pendingUp == "" then t else SendUp(t, t.pendingUp, w).(pendingUp := "")
  }

  /** HandleClose of the upstream: the disconnected half of OnUpstreamConnection, then the queued destruction. */
  function CloseUp(s: Session): Session {
    if !T.Closes(s.up) then s
    else
      var t := s.(up := T.HandleClose(s.up));
      var u := if t.torn then t else t.(upReady := false, upRef := false, down := T.Shutdown(t.down));
      u.(pending := u.pending + [DestroyUp])
  }

  /** HandleClose of the downstream: Teardown. The model stops here. */
  function CloseDown(s: Session): Session {
    if !T.Closes(s.down) then s
    else s.(down := T.HandleClose(s.down), torn := true, upReady := false, upRef := false,
            upPaused := false, downPaused := false, pendingUp := "")
  }

  // ---------- Handlers ----------

  function ReadUpOnce(s: Session, r: Read): Session
  {
    OnUpstreamData(s.(up := T.Receive(s.up, r.offer)), r.w)
  }

  function ReadDownOnce(s: Session, r: Read): Session
  {
    OnDownstreamData(s.(down := T.Receive(s.down, r.offer)), r.w)
  }

  /** HandleRead: read until EAGAIN (the offers run out), the end of the stream, or a pause. */
  function ReadUp(s: Session, script: seq<Read>, closed: bool): Session
    decreases script
  {
    if script == [] then if closed then CloseUp(s) else s
    else
      var t := ReadUpOnce(s, script[0]);
      if t.up.IsReading() then ReadUp(t, script[1..], closed) else t
  }

  function ReadDown(s: Session, script: seq<Read>, closed: bool): Session
    decreases script
  {
    if script == [] then if closed then CloseDown(s) else s
    else
      var t := ReadDownOnce(s, script[0]);
      if t.down.IsReading() then ReadDown(t, script[1..], closed) else t
  }

  function WriteUp(s: Session, w: T.WriteResult): Session {
    var o := T.HandleWrite(s.up, w);
    Queue(s.(up := o.conn), o.complete, Up)
  }

  function WriteDown(s: Session, w: T.WriteResult): Session {
    var o := T.HandleWrite(s.down, w);
    Queue(s.(down := o.conn), o.complete, Down)
  }

  /** Channel::HandleEvent, in the order of ChannelSpec.Dispatch. */
  function HandleUp(s: Session, e: C.Revents, script: seq<Read>, closed: bool, w: T.WriteResult): Session
  {
    var a := if e.hup && !e.input then CloseUp(s) else s;
    var b := if e.Readable() then ReadUp(a, script, closed) else a;
    if e.output then WriteUp(b, w) else b
  }

  function HandleDown(s: Session, e: C.Revents, script: seq<Read>, closed: bool, w: T.WriteResult): Session
  {
    var a := if e.hup && !e.input then CloseDown(s) else s;
    var b := if e.Readable() then ReadDown(a, script, closed) else a;
    if e.output then WriteDown(b, w) else b
  }

  /** A queued write-complete functor looks at the backlog again when it runs. */
  function RunFunctor(s: Session, f: Functor): Session {
    match f
    case WriteComplete(Down) =>
      if s.down.output == "" && s.down.completeCallback then DownWriteComplete(s) else s
    case WriteComplete(Up) =>
      if s.up.output == "" && s.up.completeCallback then UpWriteComplete(s) else s
    case DestroyUp => s.(up := T.ConnectionDestroyed(s.up))
  }

  function RunOne(s: Session): Session
    requires s.batch != []
  {
    RunFunctor(s.(batch := s.batch[1..]), s.batch[0])
  }

  lemma RunOneShortens(s: Session)
    requires s.batch != []
    ensures RunOne(s).batch == s.batch[1..]
  {
  }

  /** The rest of DoPendingFunctors once the queue is swapped out. */
  function RunBatch(s: Session): Session
    decreases |s.batch|
  {
    if s.batch == [] then s.(phase := Polling)
    else
      RunOneShortens(s);
      RunBatch(RunOne(s))
  }

  // ---------- Steps of the loop ----------

  datatype Step =
    | Poll(upEvent: Option<C.Revents>, downEvent: Option<C.Revents>, connEvent: bool)
    | UpEvent(script: seq<Read>, closed: bool, w: T.WriteResult)
    | DownEvent(script: seq<Read>, closed: bool, w: T.WriteResult)
    | ConnectEvent(w: T.WriteResult)
    | SwapFunctors
    | NextFunctor
    | EndFunctors

  ghost predicate Enabled(s: Session, step: Step) {
    && !s.torn
    && match step
       case Poll(ue, de, ce) =>
         && s.phase == Polling
         && (ue.Some? ==> C.Reportable(s.up.chan, ue.value))
         && (de.Some? ==> C.Reportable(s.down.chan, de.value))
         && (ce ==> s.up.state == T.Connecting)
       case UpEvent(_, _, _) => s.phase == Handling && s.upEvent.Some?
       case DownEvent(_, _, _) => s.phase == Handling && s.downEvent.Some?
       case ConnectEvent(_) => s.phase == Handling && s.connEvent
       case SwapFunctors => s.phase == Handling && s.upEvent.None? && s.downEvent.None? && !s.connEvent
       case NextFunctor => s.phase == Running && s.batch != []
       case EndFunctors => s.phase == Running && s.batch == []
  }

  function Next(s: Session, step: Step): Session
    requires Enabled(s, step)
  {
    match step
    case Poll(ue, de, ce) => s.(phase := Handling, upEvent := ue, downEvent := de, connEvent := ce)
    case UpEvent(script, closed, w) => HandleUp(s.(upEvent := None), s.upEvent.value, script, closed, w)
    case DownEvent(script, closed, w) => HandleDown(s.(downEvent := None), s.downEvent.value, script, closed, w)
    case ConnectEvent(w) => UpstreamConnected(s.(connEvent := false), w)
    case SwapFunctors => s.(phase := Running, batch := s.pending, pending := [])
    case NextFunctor => RunOne(s)
    case EndFunctors => s.(phase := Polling)
  }

  ghost predicate IsRun(s: Session, steps: seq<Step>)
    decreases steps
  {
    steps == [] || (Enabled(s, steps[0]) && IsRun(Next(s, steps[0]), steps[1..]))
  }

  ghost function After(s: Session, steps: seq<Step>): Session
    requires IsRun(s, steps)
    decreases steps
  {
    if steps == [] then s else After(Next(s, steps[0]), steps[1..])
  }
}
