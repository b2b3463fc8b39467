/** ProxySession and the loop that drives it, as objects. Calls into the kernel are parameters. */
module ProxyCode {
  import opened Prelude
  import B = BufferSpec
  import C = ChannelSpec
  import T = TcpConnectionSpec
  import opened TcpConnectionCode
  import Spec = ProxySpec

  /** The part of EventLoop that a session shares: its functor queue and the events of this round. */
  class Loop {
    var pending: seq<Spec.Functor>
    var batch: seq<Spec.Functor>
    var phase: Spec.Phase
    var upEvent: Option<C.Revents>
    var downEvent: Option<C.Revents>
    var connEvent: bool

    constructor ()
      ensures pending == [] && batch == [] && phase == Spec.Polling
      ensures upEvent.None? && downEvent.None? && !connEvent
    {
      pending, batch, phase := [], [], Spec.Polling;
      upEvent, downEvent, connEvent := None, None, false;
    }

    method QueueInLoop(f: Spec.Functor)
      modifies this`pending
      ensures pending == old(pending) + [f]
    {
      pending := pending + [f];
    }
  }

  class ProxySession {
    const loop: Loop
    const down: TcpConnection
    // The upstream connection object, and up_conn_, the session's reference to it.
    var made: TcpConnection?
    var upConn: TcpConnection?
    var pendingUp: Bytes
    var upReady: bool
    var tearingDown: bool
    var downReadPaused: bool
    var upReadPaused: bool

    ghost predicate Valid()
      reads this
    {
      made != down && (upConn == null || upConn == made) && (tearingDown ==> upConn == null)
    }

    ghost function Repr(): set<object>
      reads this
    {
      {this, loop, down} + (if made == null then {} else {made})
    }

    ghost function View(): Spec.Session
      requires Valid()
      reads this, Repr()
    {
      Spec.Session(
        down.View(), if made == null then T.NEW else made.View(), upConn != null, upReady, pendingUp,
        upReadPaused, downReadPaused, tearingDown,
        loop.pending, loop.batch, loop.phase, loop.upEvent, loop.downEvent, loop.connEvent)
    }

    /** Start on a downstream connection that was just established. */
    constructor (loop: Loop, down: TcpConnection)
      requires down.View() == T.ConnectionEstablished(T.NEW)
      requires loop.pending == [] && loop.batch == [] && loop.phase == Spec.Polling
      requires loop.upEvent.None? && loop.downEvent.None? && !loop.connEvent
      modifies down
      ensures Valid() && View() == Spec.START && this.loop == loop && this.down == down
    {
      this.loop, this.down := loop, down;
      made, upConn := null, null;
      pendingUp, upReady, tearingDown := "", false, false;
      downReadPaused, upReadPaused := false, false;
      new;
      down.SetHighWaterMarkCallback(Spec.MARK);
      down.SetWriteCompleteCallback();
    }

    method DownHighWater()
      requires Valid()
      modifies Repr()
      ensures Valid() && made == old(made) && upConn == old(upConn)
      ensures View() == Spec.DownHighWater(old(View()))
    {
      if !tearingDown && upConn != null && !upReadPaused {
        upConn.DisableReading();
        upReadPaused := true;
      }
    }

    method UpHighWater()
      requires Valid()
      modifies Repr()
      ensures Valid() && made == old(made) && upConn == old(upConn)
      ensures View() == Spec.UpHighWater(old(View()))
    {
      if !tearingDown && !downReadPaused {
        down.DisableReading();
        downReadPaused := true;
      }
    }

    method DownWriteComplete()
      requires Valid()
      modifies Repr()
      ensures Valid() && made == old(made) && upConn == old(upConn)
      ensures View() == Spec.DownWriteComplete(old(View()))
    {
      if !tearingDown && upConn != null && upReadPaused {
        upConn.EnableReading();
        upReadPaused := false;
      }
    }

    method UpWriteComplete()
      requires Valid()
      modifies Repr()
      ensures Valid() && made == old(made) && upConn == old(upConn)
      ensures View() == Spec.UpWriteComplete(old(View()))
    {
      if !tearingDown && downReadPaused {
        down.EnableReading();
        downReadPaused := false;
      }
    }

    method SendDown(data: Bytes, w: T.WriteResult)
      requires Valid()
      modifies Repr()
      ensures Valid() && made == old(made) && upConn == old(upConn)
      ensures View() == Spec.SendDown(old(View()), data, w)
    {
      var complete, high := down.SendInLoop(data, w);
      if complete { loop.QueueInLoop(Spec.WriteComplete(Spec.Down)); }
      if high { DownHighWater(); }
    }

    method SendUp(data: Bytes, w: T.WriteResult)
      requires Valid() && made != null
      modifies Repr()
      ensures Valid() && made == old(made) && upConn == old(upConn)
      ensures View() == Spec.SendUp(old(View()), data, w)
    {
      var complete, high := made.SendInLoop(data, w);
      if complete { loop.QueueInLoop(Spec.WriteComplete(Spec.Up)); }
      if high { UpHighWater(); }
    }

    method OnUpstreamData(w: T.WriteResult)
      requires Valid() && made != null
      modifies Repr()
      ensures Valid() && made == old(made) && upConn == old(upConn)
      ensures View() == Spec.OnUpstreamData(old(View()), w)
    {
      if made.input.content == "" { return; }
      if !tearingDown {
        SendDown(made.input.content, w);
      }
      made.input := B.RetrieveAll(made.input);
    }

    method OnDownstreamData(w: T.WriteResult)
      requires Valid()
      modifies Repr()
      ensures Valid() && made == old(made) && upConn == old(upConn)
      ensures View() == Spec.OnDownstreamData(old(View()), w)
    {
      if down.input.content == "" { return; }
      if !tearingDown {
        if upReady && upConn != null {
          SendUp(down.input.content, w);
        } else {
          pendingUp := pendingUp + down.input.content;
        }
      }
      down.input := B.RetrieveAll(down.input);
    }

    /** TcpClient::NewConnection, up to the connection callback. */
    method MakeConnection()
      requires Valid()
      modifies this`made
      ensures made != null && fresh(made) && made.View() == T.ConnectionEstablished(T.NEW)
    {
      var c := new TcpConnection();
      c.ConnectionEstablished();
      made := c;
    }

    /** The session adopts the new connection and installs flow control on it. */
    method Adopt()
      requires made != null && made != down && made.View() == T.ConnectionEstablished(T.NEW) && !tearingDown
      modifies this`upConn, this`upReady, made
      ensures Valid() && upConn == made && upReady && made.View() == Spec.OPENED
    {
      upConn, upReady := made, true;
      made.SetHighWaterMarkCallback(Spec.MARK);
      made.SetWriteCompleteCallback();
    }

    method Flush(w: T.WriteResult)
      requires Valid() && made != null
      modifies Repr()
      ensures Valid() && made == old(made)
      ensures View() == var s := old(View());
        if s.pendingUp == "" then s else Spec.SendUp(s, s.pendingUp, w).(pendingUp := "")
    {
      if pendingUp != "" {
        SendUp(pendingUp, w);
        pendingUp := "";
      }
    }

    /** OnUpstreamConnection with the new connection; tearing_down_ makes it return at once. */
    method UpstreamConnected(w: T.WriteResult)
      requires Valid()
      modifies this, loop, down
      ensures Valid() && made != null && fresh(made)
      ensures View() == Spec.UpstreamConnected(old(View()), w)
    {
      MakeConnection();
      if tearingDown { return; }
      Adopt();
      Flush(w);
    }

    /** HandleClose of the upstream, with TcpClient::RemoveConnection and OnUpstreamConnection. */
    method CloseUp()
      requires Valid() && made != null
      modifies Repr()
      ensures Valid() && made == old(made)
      ensures View() == Spec.CloseUp(old(View()))
    {
      var closing := made.HandleClose();
      if closing {
        if !tearingDown {
          upReady := false;
          upConn := null;
          down.Shutdown();
        }
        loop.QueueInLoop(Spec.DestroyUp);
      }
    }

    /** HandleClose of the downstream, with Teardown of the session's own state. */
    method CloseDown()
      requires Valid()
      modifies Repr()
      ensures Valid() && made == old(made)
      ensures View() == Spec.CloseDown(old(View()))
    {
      var closing := down.HandleClose();
      if closing {
        tearingDown, upReady, upConn, pendingUp := true, false, null, "";
        upReadPaused, downReadPaused := false, false;
      }
    }

    /** TcpConnection::HandleRead of the upstream: an edge-triggered loop. */
    method ReadUp(script: seq<Spec.Read>, closed: bool)
      requires Valid() && made != null
      modifies Repr()
      ensures Valid() && made == old(made)
      ensures View() == Spec.ReadUp(old(View()), script, closed)
    {
      var i := 0;
      while i < |script|
        invariant 0 <= i <= |script|
        invariant Valid() && made == old(made)
        invariant Spec.ReadUp(View(), script[i..], closed) == Spec.ReadUp(old(View()), script, closed)
      {
        ghost var s := View();
        made.Receive(script[i].offer);
        OnUpstreamData(script[i].w);
        assert View() == Spec.ReadUpOnce(s, script[i]);
        assert script[i..][1..] == script[i + 1..];
        i := i + 1;
        if !made.IsReading() { return; }
      }
      if closed { CloseUp(); }
    }

    method ReadDown(script: seq<Spec.Read>, closed: bool)
      requires Valid()
      modifies Repr()
      ensures Valid() && made == old(made)
      ensures View() == Spec.ReadDown(old(View()), script, closed)
    {
      var i := 0;
      while i < |script|
        invariant 0 <= i <= |script|
        invariant Valid() && made == old(made)
        invariant Spec.ReadDown(View(), script[i..], closed) == Spec.ReadDown(old(View()), script, closed)
      {
        ghost var s := View();
        down.Receive(script[i].offer);
        OnDownstreamData(script[i].w);
        assert View() == Spec.ReadDownOnce(s, script[i]);
        assert script[i..][1..] == script[i + 1..];
        i := i + 1;
        if !down.IsReading() { return; }
      }
      if closed { CloseDown(); }
    }

    method WriteDown(w: T.WriteResult)
      requires Valid()
      modifies Repr()
      ensures Valid() && made == old(made)
      ensures View() == Spec.WriteDown(old(View()), w)
    {
      var complete := down.HandleWrite(w);
      if complete { loop.QueueInLoop(Spec.WriteComplete(Spec.Down)); }
    }

    method WriteUp(w: T.WriteResult)
      requires Valid() && made != null
      modifies Repr()
      ensures Valid() && made == old(made)
      ensures View() == Spec.WriteUp(old(View()), w)
    {
      var complete := made.HandleWrite(w);
      if complete { loop.QueueInLoop(Spec.WriteComplete(Spec.Up)); }
    }

    /** Channel::HandleEvent of the upstream. */
    method HandleUp(e: C.Revents, script: seq<Spec.Read>, closed: bool, w: T.WriteResult)
      requires Valid() && made != null
      modifies Repr()
      ensures Valid() && made == old(made)
      ensures View() == Spec.HandleUp(old(View()), e, script, closed, w)
    {
      if e.hup && !e.input { CloseUp(); }
      if e.Readable() { ReadUp(script, closed); }
      if e.output { WriteUp(w); }
    }

    method HandleDown(e: C.Revents, script: seq<Spec.Read>, closed: bool, w: T.WriteResult)
      requires Valid()
      modifies Repr()
      ensures Valid() && made == old(made)
      ensures View() == Spec.HandleDown(old(View()), e, script, closed, w)
    {
      if e.hup && !e.input { CloseDown(); }
      if e.Readable() { ReadDown(script, closed); }
      if e.output { WriteDown(w); }
    }

    method RunFunctor(f: Spec.Functor)
      requires Valid() && (f.DestroyUp? ==> made != null)
      modifies Repr()
      ensures Valid() && made == old(made)
      ensures View() == Spec.RunFunctor(old(View()), f)
    {
      match f {
        case WriteComplete(Down) =>
          if down.output == "" && down.completeCallback { DownWriteComplete(); }
        case WriteComplete(Up) =>
          if made != null && made.output == "" && made.completeCallback { UpWriteComplete(); }
        case DestroyUp =>
          made.ConnectionDestroyed();
      }
    }

    /** EventLoop::DoPendingFunctors: swap the queue out, then run what was in it. */
    method DoPendingFunctors()
      requires Valid() && loop.phase == Spec.Handling && loop.batch == []
      requires Spec.DestroyUp in loop.pending ==> made != null
      modifies Repr()
      ensures Valid() && made == old(made)
      ensures View() == Spec.RunBatch(old(View()).(phase := Spec.Running, batch := old(loop.pending), pending := []))
    {
      loop.phase, loop.batch, loop.pending := Spec.Running, loop.pending, [];
      RunFunctors();
    }

    method RunFunctors()
      requires Valid() && (Spec.DestroyUp in loop.batch ==> made != null)
      modifies Repr()
      ensures Valid() && made == old(made)
      ensures View() == Spec.RunBatch(old(View()))
    {
      ghost var goal := Spec.RunBatch(View());
      while loop.batch != []
        invariant Valid() && made == old(made)
        invariant Spec.DestroyUp in loop.batch ==> made != null
        invariant Spec.RunBatch(View()) == goal
        decreases |loop.batch|
      {
        ghost var s := View();
        Spec.RunOneShortens(s);
        var f := loop.batch[0];
        loop.batch := loop.batch[1..];
        RunFunctor(f);
        assert View() == Spec.RunOne(s);
      }
      loop.phase := Spec.Polling;
    }
  }
}
