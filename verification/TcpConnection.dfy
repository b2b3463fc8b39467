/** One connection: src/net/TcpConnection.cpp. Its two Buffers appear as their values (Buffer.dfy). */
module TcpConnectionSpec {
  import opened Prelude
  import B = BufferSpec
  import C = ChannelSpec

  datatype State = Connecting | Connected | Disconnecting | Disconnected

  // What ::write reports; Failed is any errno but EAGAIN and EWOULDBLOCK.
  datatype WriteResult = Accepted(n: nat) | WouldBlock | Failed

  /** received, sent, dropped and halfClosed record what passed between the connection and the kernel:
      the bytes read from it, the bytes it accepted, how many bytes a failed write lost, and SHUT_WR; closed
      says that the descriptor was closed. */
  datatype Conn = Conn(
    state: State, chan: C.Channel, input: B.ValidView, output: Bytes,
    mark: nat, highCallback: bool, completeCallback: bool,
    received: Bytes, sent: Bytes, dropped: nat, halfClosed: bool, closed: bool)
  {
    predicate IsReading() { chan.events.input }
    predicate IsWriting() { chan.events.output }
  }

  const DEFAULT_MARK: nat := 64 * 1024 * 1024

  const NEW := Conn(Connecting, C.NEW, B.Fresh, "", DEFAULT_MARK, false, false, "", "", 0, false, false)

  /** The outcome of a write or a send: the new connection, whether a write-complete functor was queued,
      and whether the high-water callback was called (it is the last thing SendInLoop does). */
  datatype Outcome = Outcome(conn: Conn, complete: bool, high: bool)

  /** Stores what the kernel did not take and arms EPOLLOUT. */
  function Store(c: Conn, rest: Bytes): Outcome {
    if rest == "" then Outcome(c, false, false)
    else
      var old_ := |c.output|;
      var crossed := old_ < c.mark <= old_ + |rest| && c.highCallback;
      var d := c.(output := c.output + rest,
                  chan := if c.IsWriting() then c.chan else C.EnableWriting(c.chan));
      Outcome(d, false, crossed)
  }

  function SendInLoop(c: Conn, data: Bytes, w: WriteResult): Outcome {
    if c.state == Disconnected then Outcome(c.(dropped := c.dropped + |data|), false, false)
    else if c.output != "" then Store(c, data)
    else match w
      case Accepted(n) =>
        var k := Min(n, |data|);
        var d := c.(sent := c.sent + data[..k]);
        if k == |data| then Outcome(d, c.completeCallback, false) else Store(d, data[k..])
      case WouldBlock => Store(c, data)
      case Failed => Outcome(c.(dropped := c.dropped + |data|), false, false)
  }

  function HandleWrite(c: Conn, w: WriteResult): Outcome {
    if !c.IsWriting() || !w.Accepted? || Min(w.n, |c.output|) == 0 then Outcome(c, false, false)
    else
      var k := Min(w.n, |c.output|);
      var d := c.(sent := c.sent + c.output[..k], output := c.output[k..]);
      if d.output != "" then Outcome(d, false, false)
      else
        var e := d.(chan := C.DisableWriting(d.chan), halfClosed := d.halfClosed || d.state == Disconnecting);
        Outcome(e, e.completeCallback, false)
  }

  function ConnectionEstablished(c: Conn): Conn {
    c.(state := Connected, chan := C.EnableReading(c.chan))
  }

  function ConnectionDestroyed(c: Conn): Conn {
    c.(state := Disconnected, chan := C.Remove(c.chan), closed := true)
  }

  function Shutdown(c: Conn): Conn {
    if c.state == Connected then
      c.(state := Disconnecting, halfClosed := c.halfClosed || !c.IsWriting())
    else c
  }

  /** HandleClose; its callbacks run only when it does not return early. */
  predicate Closes(c: Conn) {
    c.state != Disconnecting && c.state != Disconnected
  }

  function HandleClose(c: Conn): Conn {
    if Closes(c) then c.(state := Disconnecting, chan := C.DisableAll(c.chan)) else c
  }

  function EnableReading(c: Conn): Conn {
    c.(chan := C.EnableReading(c.chan))
  }

  function DisableReading(c: Conn): Conn {
    c.(chan := C.DisableReading(c.chan))
  }

  function SetHighWaterMarkCallback(c: Conn, mark: nat): Conn {
    c.(highCallback := true, mark := mark)
  }

  function SetWriteCompleteCallback(c: Conn): Conn {
    c.(completeCallback := true)
  }

  /** One ReadFd into the input buffer. */
  function Receive(c: Conn, offer: Bytes): Conn {
    c.(input := B.ReadFd(c.input, offer), received := c.received + B.Taken(c.input, offer))
  }

  // ---------- What sending keeps ----------

  lemma StoreAppends(c: Conn, rest: Bytes)
    ensures var d := Store(c, rest).conn;
      d.sent == c.sent && d.output == c.output + rest && d.dropped == c.dropped
  {
  }

  /** Every byte handed to SendInLoop is sent, kept in order behind the earlier ones, or counted as dropped. */
  lemma SendConserves(c: Conn, data: Bytes, w: WriteResult)
    ensures var d := SendInLoop(c, data, w).conn;
      && d.dropped >= c.dropped
      && (d.dropped == c.dropped ==> d.sent + d.output == c.sent + c.output + data)
      && |d.sent| + |d.output| + d.dropped == |c.sent| + |c.output| + c.dropped + |data|
      && c.sent <= d.sent
  {
    if c.state == Disconnected || (c.output == "" && w.Failed?) {
      if |data| == 0 { assert c.sent + c.output + data == c.sent + c.output; }
    } else if c.output == "" && w.Accepted? {
      var k := Min(w.n, |data|);
      StoreAppends(c.(sent := c.sent + data[..k]), data[k..]);
      SplitJoin(data, k);
      Associate(c.sent, data[..k], data[k..]);
      assert c.sent + c.output == c.sent;
      assert SendInLoop(c, data, w).conn == Store(c.(sent := c.sent + data[..k]), data[k..]).conn;
    } else {
      StoreAppends(c, data);
      Associate(c.sent, c.output, data);
    }
  }

  /** Sending is lossless exactly when the connection is not yet destroyed and the kernel does not refuse,
      with an error other than EAGAIN, a write tried on an empty backlog. */
  lemma SendLosslessIff(c: Conn, data: Bytes, w: WriteResult)
    requires data != ""
    ensures var d := SendInLoop(c, data, w).conn;
      d.sent + d.output == c.sent + c.output + data
      <==> c.state != Disconnected && !(c.output == "" && w.Failed?)
  {
    SendConserves(c, data, w);
    var d := SendInLoop(c, data, w).conn;
    assert |d.sent + d.output| == |d.sent| + |d.output|;
  }

  /** One lost byte: a connected peer, nothing waiting, and the write fails. */
  lemma FailedWriteLoses()
    ensures var c := ConnectionEstablished(NEW);
      var d := SendInLoop(c, "x", Failed).conn; d.sent + d.output != c.sent + c.output + "x"
  {
    SendLosslessIff(ConnectionEstablished(NEW), "x", Failed);
  }

  lemma WriteConserves(c: Conn, w: WriteResult)
    ensures var d := HandleWrite(c, w).conn;
      d.sent + d.output == c.sent + c.output && d.dropped == c.dropped && c.sent <= d.sent
  {
    if c.IsWriting() && w.Accepted? {
      var k := Min(w.n, |c.output|);
      assert c.output == c.output[..k] + c.output[k..];
      assert c.sent + c.output[..k] + c.output[k..] == c.sent + c.output;
    }
  }

  /** EPOLLOUT is armed exactly while bytes wait to be written. */
  ghost predicate Armed(c: Conn) {
    c.IsWriting() <==> c.output != ""
  }

  /** The high-water callback fires exactly when the backlog passes from below the mark to the mark or above. */
  lemma HighWaterIsTheCrossing(c: Conn, data: Bytes, w: WriteResult)
    requires c.highCallback
    ensures var o := SendInLoop(c, data, w);
      o.high <==> |c.output| < c.mark <= |o.conn.output| && o.conn.output != c.output
  {
    var o := SendInLoop(c, data, w);
    if o.conn.output != c.output {
      assert |o.conn.output| > |c.output|;
    }
  }

  /** A connection that the kernel watches stays watched, and stays armed exactly while it has a backlog,
      through every send and write. */
  lemma SendKeepsArmed(c: Conn, data: Bytes, w: WriteResult)
    requires C.Live(c.chan) && Armed(c)
    ensures var d := SendInLoop(c, data, w).conn;
      C.Live(d.chan) && Armed(d) && d.IsReading() == c.IsReading()
  {
  }

  lemma WriteKeepsArmed(c: Conn, w: WriteResult)
    requires C.Live(c.chan) && Armed(c)
    ensures var d := HandleWrite(c, w).conn;
      C.Live(d.chan) && Armed(d) && d.IsReading() == c.IsReading()
  {
  }

  // ---------- Runs of sends and writes ----------

  datatype Op = OpSend(data: Bytes, w: WriteResult) | OpWrite(w: WriteResult)

  function Apply(c: Conn, op: Op): Conn {
    match op
    case OpSend(data, w) => SendInLoop(c, data, w).conn
    case OpWrite(w) => HandleWrite(c, w).conn
  }

  function Run(c: Conn, ops: seq<Op>): Conn
    decreases ops
  {
    if ops == [] then c else Run(Apply(c, ops[0]), ops[1..])
  }

  /** The bytes handed to the sends of a run. */
  function Offered(ops: seq<Op>): Bytes {
    if ops == [] then "" else (if ops[0].OpSend? then ops[0].data else "") + Offered(ops[1..])
  }

  lemma ApplyConserves(c: Conn, op: Op)
    ensures var d := Apply(c, op); var data := if op.OpSend? then op.data else "";
      && d.dropped >= c.dropped
      && (d.dropped == c.dropped ==> d.sent + d.output == c.sent + c.output + data)
      && |d.sent| + |d.output| + d.dropped == |c.sent| + |c.output| + c.dropped + |data|
  {
    match op
    case OpSend(data, w) => SendConserves(c, data, w);
    case OpWrite(w) =>
      WriteConserves(c, w);
      assert |Apply(c, op).sent + Apply(c, op).output| == |c.sent + c.output|;
      assert c.sent + c.output + "" == c.sent + c.output;
  }

  lemma {:induction false} RunConserves(c: Conn, ops: seq<Op>)
    ensures var d := Run(c, ops);
      && d.dropped >= c.dropped
      && (d.dropped == c.dropped ==> d.sent + d.output == c.sent + c.output + Offered(ops))
      && |d.sent| + |d.output| + d.dropped == |c.sent| + |c.output| + c.dropped + |Offered(ops)|
    decreases ops
  {
    if ops == [] {
      assert c.sent + c.output + Offered(ops) == c.sent + c.output;
    } else {
      var a := Apply(c, ops[0]);
      ApplyConserves(c, ops[0]);
      RunConserves(a, ops[1..]);
      var data := if ops[0].OpSend? then ops[0].data else "";
      Associate(c.sent + c.output, data, Offered(ops[1..]));
    }
  }

  /** The send is refused: the connection is destroyed, or the kernel fails the write it tries on an empty backlog. */
  predicate Refused(c: Conn, op: Op) {
    op.OpSend? && op.data != "" && (c.state == Disconnected || (c.output == "" && op.w.Failed?))
  }

  /** Some send of the run is refused. */
  predicate Faulty(c: Conn, ops: seq<Op>)
    decreases ops
  {
    ops != [] && (Refused(c, ops[0]) || Faulty(Apply(c, ops[0]), ops[1..]))
  }

  lemma SendDropsIff(c: Conn, data: Bytes, w: WriteResult)
    requires data != ""
    ensures SendInLoop(c, data, w).conn.dropped == c.dropped
      <==> c.state != Disconnected && !(c.output == "" && w.Failed?)
  {
    SendConserves(c, data, w);
    SendLosslessIff(c, data, w);
    var d := SendInLoop(c, data, w).conn;
    assert |d.sent + d.output| == |d.sent| + |d.output|;
  }

  lemma ApplyDropsIff(c: Conn, op: Op)
    ensures Apply(c, op).dropped >= c.dropped
    ensures Apply(c, op).dropped == c.dropped <==> !Refused(c, op)
  {
    ApplyConserves(c, op);
    if op.OpSend? && op.data != "" { SendDropsIff(c, op.data, op.w); }
  }

  lemma {:induction false} RunDropsIff(c: Conn, ops: seq<Op>)
    ensures Run(c, ops).dropped >= c.dropped
    ensures Run(c, ops).dropped == c.dropped <==> !Faulty(c, ops)
    decreases ops
  {
    if ops != [] {
      ApplyDropsIff(c, ops[0]);
      RunDropsIff(Apply(c, ops[0]), ops[1..]);
    }
  }

  /** Over any run of sends and partial writes, what the kernel took followed by the backlog is everything
      offered, in order, exactly when no send of the run was refused. */
  lemma RunLosslessIff(c: Conn, ops: seq<Op>)
    ensures var d := Run(c, ops);
      d.sent + d.output == c.sent + c.output + Offered(ops) <==> !Faulty(c, ops)
  {
    RunConserves(c, ops);
    RunDropsIff(c, ops);
    var d := Run(c, ops);
    assert |d.sent + d.output| == |d.sent| + |d.output|;
  }

  /** And EPOLLOUT is armed exactly while there is a backlog. */
  lemma {:induction false} RunKeepsArmed(c: Conn, ops: seq<Op>)
    requires C.Live(c.chan) && Armed(c)
    ensures var d := Run(c, ops); C.Live(d.chan) && Armed(d) && d.IsReading() == c.IsReading()
    decreases ops
  {
    if ops != [] {
      var a := Apply(c, ops[0]);
      match ops[0] {
        case OpSend(data, w) => SendKeepsArmed(c, data, w);
        case OpWrite(w) => WriteKeepsArmed(c, w);
      }
      RunKeepsArmed(a, ops[1..]);
    }
  }

  // ---------- The end of a connection ----------

  /** What is sent to a destroyed connection goes nowhere, and the kernel reports nothing for it any more. */
  lemma DestroyedIsSilent(c: Conn)
    requires C.Consistent(c.chan)
    ensures var d := ConnectionDestroyed(c);
      && d.closed && d.chan.interest.None? && d.state == Disconnected
      && forall data, w :: SendInLoop(d, data, w).conn == d.(dropped := d.dropped + |data|)
  {
  }

  /** A close event starts the teardown exactly from the two states before it, and silences the connection; a second one
      finds nothing to do. */
  lemma CloseOnce(c: Conn)
    ensures Closes(c) <==> c.state == Connecting || c.state == Connected
    ensures var d := HandleClose(c);
      && !Closes(d) && HandleClose(d) == d
      && (Closes(c) ==> d.state == Disconnecting && d.chan.events == C.NOTHING)
      && d.output == c.output && d.sent == c.sent && d.halfClosed == c.halfClosed
  {
  }

  /** A shutdown counts once, on a connection that is up: the write side is shut at once unless bytes wait. */
  lemma ShutdownOnce(c: Conn)
    ensures var d := Shutdown(c);
      && (c.state != Connected ==> d == c) && Shutdown(d) == d
      && (c.state == Connected ==> d.state == Disconnecting && (d.halfClosed <==> c.halfClosed || !c.IsWriting()))
      && d.output == c.output && d.sent == c.sent && d.chan == c.chan
  {
  }

  // ---------- What the kernel took ----------

  /** The way to the peer without the connection object: what waits, and what the kernel took. */
  datatype Wire = Wire(waiting: Bytes, taken: Bytes)

  /** How many of the bytes it is given the kernel takes. */
  function Count(given: nat, w: WriteResult): nat {
    if w.Accepted? then Min(w.n, given) else 0
  }

  function Take(x: Wire, w: WriteResult): Wire {
    var n := Count(|x.waiting|, w);
    Wire(x.waiting[n..], x.taken + x.waiting[..n])
  }

  /** Bytes are given to the kernel at once when nothing waits, and then lost if the write fails; otherwise they
      queue up. */
  function Hand(x: Wire, data: Bytes, w: WriteResult): Wire {
    if x.waiting != "" then Wire(x.waiting + data, x.taken)
    else if w.Failed? then x
    else Take(Wire(data, x.taken), w)
  }

  function WireStep(x: Wire, op: Op): Wire {
    match op
    case OpSend(data, w) => Hand(x, data, w)
    case OpWrite(w) => Take(x, w)
  }

  function WireRun(x: Wire, ops: seq<Op>): Wire
    decreases ops
  {
    if ops == [] then x else WireRun(WireStep(x, ops[0]), ops[1..])
  }

  lemma {:induction false} WireAppend(x: Wire, a: seq<Op>, b: seq<Op>)
    ensures WireRun(x, a + b) == WireRun(WireRun(x, a), b)
    decreases a
  {
    if a == [] {
      assert a + b == b;
    } else {
      AppendTail(a, b);
      WireAppend(WireStep(x, a[0]), a[1..], b);
    }
  }

  lemma WireOne(x: Wire, op: Op)
    ensures WireRun(x, [op]) == WireStep(x, op)
  {
    assert [op][1..] == [];
  }

  lemma {:induction false} OfferedAppend(a: seq<Op>, b: seq<Op>)
    ensures Offered(a + b) == Offered(a) + Offered(b)
  {
    if a == [] {
      assert a + b == b;
    } else {
      AppendTail(a, b);
      OfferedAppend(a[1..], b);
      Associate(if a[0].OpSend? then a[0].data else "", Offered(a[1..]), Offered(b));
    }
  }

  lemma OfferedOne(op: Op)
    ensures Offered([op]) == if op.OpSend? then op.data else ""
  {
    assert [op][1..] == [];
  }

  function WireOf(c: Conn): Wire {
    Wire(c.output, c.sent)
  }

  /** A send on an empty backlog puts exactly as many bytes on the way as the kernel says it took, and keeps the
      others. */
  lemma SendTakes(c: Conn, data: Bytes, w: WriteResult)
    requires c.state != Disconnected
    ensures var d := SendInLoop(c, data, w).conn;
      && (c.output != "" ==> d.sent == c.sent && d.output == c.output + data)
      && (c.output == "" && !w.Failed? ==>
            d.sent == c.sent + data[..Count(|data|, w)] && d.output == data[Count(|data|, w)..])
      && (c.output == "" && w.Failed? ==> d.sent == c.sent && d.output == "")
  {
    assert c.sent + data[..0] == c.sent && data[0..] == data;
    StoreAppends(c, data);
    if c.output == "" && w.Accepted? {
      var k := Count(|data|, w);
      StoreAppends(c.(sent := c.sent + data[..k]), data[k..]);
      assert c.output + data[k..] == data[k..];
    }
  }

  /** A write event takes exactly as many bytes off the backlog as the kernel says, from its front. */
  lemma WriteTakes(c: Conn, w: WriteResult)
    requires Armed(c)
    ensures var d := HandleWrite(c, w).conn; var n := Count(|c.output|, w);
      d.sent == c.sent + c.output[..n] && d.output == c.output[n..]
  {
    assert c.sent + c.output[..0] == c.sent && c.output[0..] == c.output;
  }

  lemma StepIsWire(c: Conn, op: Op)
    requires Armed(c) && c.state != Disconnected
    ensures var d := Apply(c, op); WireOf(d) == WireStep(WireOf(c), op) && Armed(d) && d.state == c.state
  {
    match op
    case OpSend(data, w) => SendTakes(c, data, w);
    case OpWrite(w) => WriteTakes(c, w);
  }

  /** Over any run of sends and write events, what was sent and what waits is determined by the bytes handed over and
      the kernel's answers alone. */
  lemma {:induction false} RunIsWire(c: Conn, ops: seq<Op>)
    requires Armed(c) && c.state != Disconnected
    ensures WireOf(Run(c, ops)) == WireRun(WireOf(c), ops)
    decreases ops
  {
    if ops != [] {
      StepIsWire(c, ops[0]);
      RunIsWire(Apply(c, ops[0]), ops[1..]);
    }
  }

  /** A write-complete functor is queued exactly when the kernel has just taken everything there was. */
  lemma CompleteIsTheDraining(c: Conn, data: Bytes, w: WriteResult)
    requires Armed(c) && c.state != Disconnected
    ensures SendInLoop(c, data, w).complete
      <==> c.completeCallback && c.output == "" && w.Accepted? && w.n >= |data|
    ensures HandleWrite(c, w).complete
      <==> c.completeCallback && c.output != "" && w.Accepted? && w.n >= |c.output|
  {
  }

  /** The write side is shut by the write that empties the backlog of a connection on its way out, and by no other. */
  lemma DelayedHalfClose(c: Conn, data: Bytes, w: WriteResult)
    requires Armed(c)
    ensures SendInLoop(c, data, w).conn.halfClosed == c.halfClosed
    ensures HandleWrite(c, w).conn.halfClosed
      <==> c.halfClosed || (c.state == Disconnecting && c.output != "" && w.Accepted? && w.n >= |c.output|)
  {
  }
}

/** The connection object. A call into the kernel is a parameter; the write-complete functor and the
    high-water callback are reported to the caller, who queues the one and runs the other at once. */
module TcpConnectionCode {
  import opened Prelude
  import B = BufferSpec
  import C = ChannelSpec
  import Spec = TcpConnectionSpec

  class TcpConnection {
    var state: Spec.State
    var chan: C.Channel
    var input: B.ValidView
    var output: Bytes
    var mark: nat
    var highCallback: bool
    var completeCallback: bool
    ghost var received: Bytes
    ghost var sent: Bytes
    ghost var dropped: nat
    ghost var halfClosed: bool
    ghost var closed: bool

    ghost function View(): Spec.Conn
      reads this
    {
      Spec.Conn(state, chan, input, output, mark, highCallback, completeCallback, received, sent, dropped, halfClosed,
                closed)
    }

    constructor ()
      ensures View() == Spec.NEW
    {
      state, chan := Spec.Connecting, C.NEW;
      input, output := B.Fresh, "";
      mark, highCallback, completeCallback := Spec.DEFAULT_MARK, false, false;
      received, sent, dropped, halfClosed, closed := "", "", 0, false, false;
    }

    predicate IsReading()
      reads this
    {
      chan.events.input
    }

    predicate IsWriting()
      reads this
    {
      chan.events.output
    }

    method ConnectionEstablished()
      modifies this
      ensures View() == Spec.ConnectionEstablished(old(View()))
    {
      state := Spec.Connected;
      chan := C.EnableReading(chan);
    }

    method ConnectionDestroyed()
      modifies this
      ensures View() == Spec.ConnectionDestroyed(old(View()))
    {
      state := Spec.Disconnected;
      chan := C.Remove(chan);
      closed := true;
    }

    method Shutdown()
      modifies this
      ensures View() == Spec.Shutdown(old(View()))
    {
      if state == Spec.Connected {
        state := Spec.Disconnecting;
        if !IsWriting() {
          halfClosed := true;
        }
      }
    }

    /** Whether the connection and close callbacks are to be called is `closing`. */
    method HandleClose() returns (closing: bool)
      modifies this
      ensures closing == old(Spec.Closes(View()))
      ensures View() == Spec.HandleClose(old(View()))
    {
      if state == Spec.Disconnecting || state == Spec.Disconnected {
        return false;
      }
      state := Spec.Disconnecting;
      chan := C.DisableAll(chan);
      return true;
    }

    method Receive(offer: Bytes)
      modifies this
      ensures View() == Spec.Receive(old(View()), offer)
    {
      received := received + B.Taken(input, offer);
      input := B.ReadFd(input, offer);
    }

    method SendInLoop(data: Bytes, w: Spec.WriteResult) returns (complete: bool, high: bool)
      modifies this
      ensures Spec.Outcome(View(), complete, high) == Spec.SendInLoop(old(View()), data, w)
    {
      complete, high := false, false;
      if state == Spec.Disconnected {
        dropped := dropped + |data|;
        return;
      }
      var nwrote := 0;
      var remaining := |data|;
      var faultError := false;
      if output == "" {
        match w {
          case Accepted(n) =>
            nwrote := Min(n, |data|);
            sent := sent + data[..nwrote];
            remaining := |data| - nwrote;
            complete := remaining == 0 && completeCallback;
          case WouldBlock =>
          case Failed =>
            faultError := true;
            dropped := dropped + |data|;
        }
      }
      if !faultError && remaining > 0 {
        var oldLen := |output|;
        high := oldLen < mark && oldLen + remaining >= mark && highCallback;
        output := output + data[nwrote..];
        if !IsWriting() {
          chan := C.EnableWriting(chan);
        }
      }
      assert data[0..] == data;
    }

    method HandleWrite(w: Spec.WriteResult) returns (complete: bool)
      modifies this
      ensures Spec.Outcome(View(), complete, false) == Spec.HandleWrite(old(View()), w)
    {
      complete := false;
      if IsWriting() {
        var n := if w.Accepted? then Min(w.n, |output|) else 0;
        if n > 0 {
          sent := sent + output[..n];
          output := output[n..];
          if output == "" {
            chan := C.DisableWriting(chan);
            complete := completeCallback;
            if state == Spec.Disconnecting {
              halfClosed := true;
            }
          }
        }
      }
    }

    method EnableReading()
      modifies this
      ensures View() == Spec.EnableReading(old(View()))
    {
      chan := C.EnableReading(chan);
    }

    method DisableReading()
      modifies this
      ensures View() == Spec.DisableReading(old(View()))
    {
      chan := C.DisableReading(chan);
    }

    method SetHighWaterMarkCallback(m: nat)
      modifies this
      ensures View() == Spec.SetHighWaterMarkCallback(old(View()), m)
    {
      highCallback, mark := true, m;
    }

    method SetWriteCompleteCallback()
      modifies this
      ensures View() == Spec.SetWriteCompleteCallback(old(View()))
    {
      completeCallback := true;
    }
  }
}
