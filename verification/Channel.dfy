/** Event masks, and their registration with epoll (src/net/Channel.cpp, EventLoop::UpdateChannel). */
module ChannelSpec {
  import opened Prelude

  // The bits EPOLLIN, EPOLLOUT and EPOLLET of events_.
  datatype Mask = Mask(input: bool, output: bool, edge: bool)

  const NOTHING := Mask(false, false, false)

  // index: -1 new, 1 registered, 2 registered with an empty mask.
  // interest: what the kernel holds for the descriptor, None when it is not in the epoll set.
  datatype Channel = Channel(events: Mask, index: int, interest: Option<Mask>)

  const NEW := Channel(NOTHING, -1, None)

  /** EventLoop::UpdateChannel. EPOLL_CTL_ADD fails on a registered descriptor, MOD on an absent one. */
  function Update(c: Channel): Channel {
    if c.index == -1 || c.index == 2 then
      if c.interest.None? then c.(interest := Some(c.events), index := 1) else c
    else if c.index == 1 && c.interest.Some? then
      c.(interest := Some(c.events), index := if c.events == NOTHING then 2 else 1)
    else c
  }

  function EnableReading(c: Channel): Channel {
    Update(c.(events := c.events.(input := true, edge := true)))
  }

  function DisableReading(c: Channel): Channel {
    Update(c.(events := c.events.(input := false)))
  }

  function EnableWriting(c: Channel): Channel {
    Update(c.(events := c.events.(output := true)))
  }

  function DisableWriting(c: Channel): Channel {
    Update(c.(events := c.events.(output := false)))
  }

  function DisableAll(c: Channel): Channel {
    Update(c.(events := NOTHING))
  }

  function Remove(c: Channel): Channel {
    c.(interest := if c.index == 1 || c.index == 2 then None else c.interest, index := -1)
  }

  datatype Op = OnRead | OffRead | OnWrite | OffWrite | OffAll | Unregister

  function Apply(c: Channel, op: Op): Channel {
    match op
    case OnRead => EnableReading(c)
    case OffRead => DisableReading(c)
    case OnWrite => EnableWriting(c)
    case OffWrite => DisableWriting(c)
    case OffAll => DisableAll(c)
    case Unregister => Remove(c)
  }

  function Run(c: Channel, ops: seq<Op>): Channel
    decreases ops
  {
    if ops == [] then c else Run(Apply(c, ops[0]), ops[1..])
  }

  /** How index_ and the kernel's registration agree. */
  ghost predicate Consistent(c: Channel) {
    && (c.index == -1 ==> c.interest.None?)
    && (c.index == 1 ==> c.interest == Some(c.events))
    && (c.index == 2 ==> c.interest == Some(NOTHING))
    && c.index in {-1, 1, 2}
  }

  lemma {:induction false} RunStaysConsistent(c: Channel, ops: seq<Op>)
    requires Consistent(c)
    ensures Consistent(Run(c, ops))
    decreases ops
  {
    if ops != [] {
      RunStaysConsistent(Apply(c, ops[0]), ops[1..]);
    }
  }

  /** The kernel watches exactly what the channel asks for. */
  ghost predicate Live(c: Channel) {
    c.index == 1 && c.interest == Some(c.events) && c.events.edge
  }

  predicate FlowControl(op: Op) {
    op.OnRead? || op.OffRead? || op.OnWrite? || op.OffWrite?
  }

  /** Pausing and resuming never silences a live channel: DisableReading leaves EPOLLET set,
      so the mask never becomes empty and index_ never becomes 2. */
  lemma {:induction false} FlowControlStaysLive(c: Channel, ops: seq<Op>)
    requires Live(c)
    requires forall i :: 0 <= i < |ops| ==> FlowControl(ops[i])
    ensures Live(Run(c, ops))
    decreases ops
  {
    if ops != [] {
      assert FlowControl(ops[0]);
      FlowControlStaysLive(Apply(c, ops[0]), ops[1..]);
    }
  }

  /** Asking for events reaches the kernel exactly when index_ is not 2: after DisableAll the descriptor is
      still in the epoll set, and the ADD that UpdateChannel then tries is refused. */
  lemma EnableReachesKernelIff(c: Channel, op: Op)
    requires Consistent(c) && (op.OnRead? || op.OnWrite?)
    ensures var d := Apply(c, op); d.interest == Some(d.events) <==> c.index != 2
  {
    assert Apply(c, op).events != NOTHING;
  }

  /** ... and it stays that way until the channel is removed. */
  lemma {:induction false} SilentUntilRemoved(c: Channel, ops: seq<Op>)
    requires Consistent(c) && c.index == 2
    requires forall i :: 0 <= i < |ops| ==> !ops[i].Unregister?
    ensures Run(c, ops).index == 2 && Run(c, ops).interest == Some(NOTHING)
    decreases ops
  {
    if ops != [] {
      assert !ops[0].Unregister?;
      SilentUntilRemoved(Apply(c, ops[0]), ops[1..]);
    }
  }

  /** A channel that read, was silenced, and asks to read again: the kernel still watches nothing. */
  lemma ReenabledButSilent()
    ensures var c := Run(NEW, [OnRead, OffAll, OnRead]);
      c.index == 2 && c.events.input && c.interest == Some(NOTHING)
  {
    var ops := [OnRead, OffAll, OnRead];
    assert ops[1..] == [OffAll, OnRead] && ops[1..][1..] == [OnRead] && [OnRead][1..] == [];
  }

  /** A removed channel has left the epoll set, and the next change of its mask registers it like a new one. */
  lemma RemovedStartsAfresh(c: Channel, op: Op)
    requires Consistent(c)
    ensures var r := Remove(c); r.interest.None? && r.index == -1 && r.events == c.events
    ensures !op.Unregister? ==> var d := Apply(Remove(c), op); d.interest == Some(d.events) && d.index == 1
  {
  }

  // ---------- What the kernel watches, read off the history ----------

  /** The last of these requests is the one that asks. */
  predicate Asks(ops: seq<Op>, on: Op, offs: set<Op>) {
    ops != [] &&
    var last := ops[|ops| - 1];
    last == on || (last !in offs && Asks(ops[..|ops| - 1], on, offs))
  }

  function MaskOf(ops: seq<Op>): Mask {
    Mask(Asks(ops, OnRead, {OffRead, OffAll}), Asks(ops, OnWrite, {OffWrite, OffAll}), Asks(ops, OnRead, {OffAll}))
  }

  /** Nothing was asked for since the beginning, or since the last removal. */
  predicate Absent(ops: seq<Op>) {
    ops == [] || ops[|ops| - 1].Unregister?
  }

  /** Since it was registered the mask has become empty once. */
  predicate Deaf(ops: seq<Op>) {
    !Absent(ops) &&
    var front := ops[..|ops| - 1];
    !Absent(front) && (Deaf(front) || MaskOf(ops) == NOTHING)
  }

  lemma {:induction false} RunSnoc(c: Channel, ops: seq<Op>, op: Op)
    ensures Run(c, ops + [op]) == Apply(Run(c, ops), op)
    decreases ops
  {
    if ops == [] {
      assert [] + [op] == [op] && [op][1..] == [];
    } else {
      AppendTail(ops, [op]);
      RunSnoc(Apply(c, ops[0]), ops[1..], op);
    }
  }

  lemma FrontLast(ops: seq<Op>)
    requires ops != []
    ensures ops == ops[..|ops| - 1] + [ops[|ops| - 1]]
  {
  }

  lemma StepIsHistory(c: Channel, ops: seq<Op>)
    requires ops != [] && c.events == MaskOf(ops[..|ops| - 1])
    ensures Apply(c, ops[|ops| - 1]).events == MaskOf(ops)
  {
  }

  /** Over any history the mask is what was last asked for, and the kernel watches exactly that, unless the channel is
      not registered, or went deaf. */
  lemma {:induction false} KernelWatches(ops: seq<Op>)
    ensures var c := Run(NEW, ops);
      && c.events == MaskOf(ops)
      && c.interest == (if Absent(ops) then None else if Deaf(ops) then Some(NOTHING) else Some(c.events))
      && c.index == (if Absent(ops) then -1 else if Deaf(ops) then 2 else 1)
  {
    if ops != [] {
      var front := ops[..|ops| - 1];
      KernelWatches(front);
      FrontLast(ops);
      RunSnoc(NEW, front, ops[|ops| - 1]);
      StepIsHistory(Run(NEW, front), ops);
    }
  }

  // ---------- Dispatch ----------

  datatype Revents = Revents(hup: bool, err: bool, input: bool, output: bool, pri: bool, rdhup: bool) {
    predicate Readable() {
      input || pri || rdhup
    }
  }

  datatype Callback = OnClose | OnError | OnInput | OnOutput

  /** What epoll_wait may report: the asked-for events, and HUP and ERR unasked, for a registered descriptor.
      No mask ever asks for EPOLLPRI or EPOLLRDHUP. */
  predicate Reportable(c: Channel, r: Revents) {
    && c.interest.Some? && !r.pri && !r.rdhup
    && (r.input ==> c.interest.value.input)
    && (r.output ==> c.interest.value.output)
  }

  /** The callbacks of Channel::HandleEvent, in the order they are called. */
  function Dispatch(r: Revents): seq<Callback> {
    (if r.hup && !r.input then [OnClose] else [])
    + (if r.err then [OnError] else [])
    + (if r.Readable() then [OnInput] else [])
    + (if r.output then [OnOutput] else [])
  }

  /** When a callback is called. */
  predicate Fires(r: Revents, c: Callback) {
    match c
    case OnClose => r.hup && !r.input
    case OnError => r.err
    case OnInput => r.input || r.pri || r.rdhup
    case OnOutput => r.output
  }

  function Firing(r: Revents, cs: seq<Callback>): seq<Callback> {
    if cs == [] then [] else (if Fires(r, cs[0]) then [cs[0]] else []) + Firing(r, cs[1..])
  }

  lemma FiringHead(r: Revents, c: Callback, cs: seq<Callback>)
    ensures Firing(r, [c] + cs) == (if Fires(r, c) then [c] else []) + Firing(r, cs)
  {
    ConsTail(c, cs);
  }

  /** The callbacks that fire, each once: close, error, input, output, in this order. */
  lemma DispatchInOrder(r: Revents)
    ensures Dispatch(r) == Firing(r, [OnClose] + ([OnError] + ([OnInput] + ([OnOutput] + []))))
  {
    FiringHead(r, OnClose, [OnError] + ([OnInput] + ([OnOutput] + [])));
    FiringHead(r, OnError, [OnInput] + ([OnOutput] + []));
    FiringHead(r, OnInput, [OnOutput] + []);
    FiringHead(r, OnOutput, []);
    Regrouped(if Fires(r, OnClose) then [OnClose] else [], if Fires(r, OnError) then [OnError] else [],
              if Fires(r, OnInput) then [OnInput] else [], if Fires(r, OnOutput) then [OnOutput] else []);
  }

  lemma Regrouped(a: seq<Callback>, b: seq<Callback>, c: seq<Callback>, d: seq<Callback>)
    ensures a + b + c + d == a + (b + (c + (d + [])))
  {
    assert d + [] == d;
    Associate(a + b, c, d);
    Associate(a, b, c + d);
  }

  /** A hang-up that arrives with data is left to the read path; a reader runs after a close callback only on
      EPOLLPRI or EPOLLRDHUP, which the kernel does not report here. */
  lemma DispatchReadsOrCloses(c: Channel, r: Revents)
    ensures OnClose in Dispatch(r) && OnInput in Dispatch(r) <==> r.hup && !r.input && (r.pri || r.rdhup)
    ensures Reportable(c, r) ==> !(OnClose in Dispatch(r) && OnInput in Dispatch(r))
    ensures OnInput in Dispatch(r) <==> r.input || r.pri || r.rdhup
    ensures OnClose in Dispatch(r) <==> r.hup && !r.input
    ensures OnOutput in Dispatch(r) ==> Dispatch(r)[|Dispatch(r)| - 1] == OnOutput
  {
  }
}

/** Channel, and the part of EventLoop that keeps the epoll set. */
module ChannelCode {
  import opened Prelude
  import Spec = ChannelSpec

  class Poller {
    // The kernel's epoll set: descriptor to watched events.
    var interest: map<int, Spec.Mask>

    constructor ()
      ensures interest == map[]
    {
      interest := map[];
    }

    method EpollAdd(fd: int, events: Spec.Mask) returns (ok: bool)
      modifies this
      ensures ok <==> fd !in old(interest)
      ensures interest == if ok then old(interest)[fd := events] else old(interest)
    {
      ok := fd !in interest;
      if ok { interest := interest[fd := events]; }
    }

    method EpollMod(fd: int, events: Spec.Mask) returns (ok: bool)
      modifies this
      ensures ok <==> fd in old(interest)
      ensures interest == if ok then old(interest)[fd := events] else old(interest)
    {
      ok := fd in interest;
      if ok { interest := interest[fd := events]; }
    }

    method UpdateChannel(ch: Channel)
      requires ch.loop == this
      modifies this, ch`index
      ensures ch.View() == Spec.Update(old(ch.View()))
      ensures forall fd :: fd != ch.fd ==> (fd in interest <==> fd in old(interest))
      ensures forall fd :: fd != ch.fd && fd in interest ==> interest[fd] == old(interest)[fd]
    {
      if ch.index == -1 || ch.index == 2 {
        var ok := EpollAdd(ch.fd, ch.events);
        if ok { ch.index := 1; }
      } else if ch.index == 1 {
        var ok := EpollMod(ch.fd, ch.events);
        if ok && ch.events == Spec.NOTHING { ch.index := 2; }
      }
    }

    method RemoveChannel(ch: Channel)
      requires ch.loop == this
      modifies this, ch`index
      ensures ch.View() == Spec.Remove(old(ch.View()))
      ensures forall fd :: fd != ch.fd ==> (fd in interest <==> fd in old(interest))
      ensures forall fd :: fd != ch.fd && fd in interest ==> interest[fd] == old(interest)[fd]
    {
      if ch.index == 1 || ch.index == 2 {
        interest := interest - {ch.fd};
      }
      ch.index := -1;
    }
  }

  class Channel {
    const loop: Poller
    const fd: int
    var events: Spec.Mask
    var index: int

    constructor (loop: Poller, fd: int)
      requires fd !in loop.interest
      ensures this.loop == loop && this.fd == fd
      ensures View() == Spec.NEW
    {
      this.loop := loop;
      this.fd := fd;
      events := Spec.NOTHING;
      index := -1;
    }

    ghost function View(): Spec.Channel
      reads this, loop
    {
      Spec.Channel(events, index, if fd in loop.interest then Some(loop.interest[fd]) else None)
    }

    method EnableReading()
      modifies this, loop
      ensures View() == Spec.EnableReading(old(View()))
    {
      events := events.(input := true, edge := true);
      loop.UpdateChannel(this);
    }

    method DisableReading()
      modifies this, loop
      ensures View() == Spec.DisableReading(old(View()))
    {
      events := events.(input := false);
      loop.UpdateChannel(this);
    }

    method EnableWriting()
      modifies this, loop
      ensures View() == Spec.EnableWriting(old(View()))
    {
      events := events.(output := true);
      loop.UpdateChannel(this);
    }

    method DisableWriting()
      modifies this, loop
      ensures View() == Spec.DisableWriting(old(View()))
    {
      events := events.(output := false);
      loop.UpdateChannel(this);
    }

    method DisableAll()
      modifies this, loop
      ensures View() == Spec.DisableAll(old(View()))
    {
      events := Spec.NOTHING;
      loop.UpdateChannel(this);
    }

    method Remove()
      modifies this`index, loop
      ensures View() == Spec.Remove(old(View()))
    {
      loop.RemoveChannel(this);
    }
  }
}
