/** The connector's retry machine and the hand-over of its socket (src/net/Connector.cpp, src/net/TcpClient.cpp). */
module ConnectorSpec {
  import opened Prelude

  datatype State = Disconnected | Connecting | Connected

  // What waits in the loop's functor queue.
  datatype Functor = StartInLoop | StopInLoop | ResetChannel

  // How socket(), inet_pton() and connect() go: no socket, a bad address, under way, an error that is
  // worth a retry, any other error.
  datatype Outcome = NoSocket | BadAddress | InProgress | Retryable | Fatal

  const INIT_DELAY := 0.5
  const MAX_DELAY := 30.0

  // Sockets are numbered in the order in which they are opened.
  type Sock = nat

  /** channel is the socket of channel_, None when it is null; timer says that retry_timer_ is armed.
      wanted is connect_ of the TcpClient. waits holds the delays of the retries since the last success,
      stopped says that a StopInLoop has run. */
  datatype Conn = Conn(
    state: State, connect: bool, delay: real, timer: bool, channel: Option<Sock>, pending: seq<Functor>,
    wanted: bool, nextSock: nat, closed: multiset<Sock>, handed: multiset<Sock>, waits: seq<real>, stopped: bool)

  /** Just after TcpClient::Connect, that is, Connector::Start. */
  const START :=
    Conn(Disconnected, true, INIT_DELAY, false, None, [StartInLoop], true, 0, multiset{}, multiset{}, [], false)

  function CloseSock(s: Conn, sock: Sock): Conn {
    s.(closed := s.closed + multiset{sock})
  }

  /** The error callback may itself call Stop, which on the loop thread runs at once. */
  function StopInLoopNow(s: Conn): Conn {
    var t := s.(timer := false, stopped := true);
    if t.state == Connecting && t.channel.Some? then
      CloseSock(t.(state := Disconnected, pending := t.pending + [ResetChannel]), t.channel.value)
    else t
  }

  function StopFromLoop(s: Conn): Conn {
    StopInLoopNow(s.(connect := false, wanted := false))
  }

  function StopFromOther(s: Conn): Conn {
    s.(connect := false, wanted := false, pending := s.pending + [StopInLoop])
  }

  /** Every failure is reported to the owner, which may answer with Stop. */
  function Report(s: Conn, callbackStops: bool): Conn {
    if callbackStops then StopFromLoop(s) else s
  }

  /** The retry timer is set, and the next delay doubles up to the maximum. */
  function RunAfter(s: Conn): Conn {
    var twice := s.delay * 2.0;
    s.(timer := true, waits := s.waits + [s.delay], delay := if twice < MAX_DELAY then twice else MAX_DELAY)
  }

  function Retry(s: Conn, sock: Sock, callbackStops: bool): Conn {
    var t := CloseSock(s, sock).(state := Disconnected);
    if !t.connect then t
    else
      RunAfter(Report(t, callbackStops))
  }

  /** What the result of connect() does with the new socket. */
  function Opened(s: Conn, sock: Sock, o: Outcome, callbackStops: bool): Conn {
    match o
    case InProgress => s.(state := Connecting, channel := Some(sock))
    case Retryable => Retry(s, sock, callbackStops)
    case _ => Report(CloseSock(s, sock), callbackStops)
  }

  function MakeSocket(s: Conn, otherStops: bool): Conn {
    var made := s.(nextSock := s.nextSock + 1);
    if otherStops then StopFromOther(made) else made
  }

  /** Connect; another thread's Stop may come between the test of connect_ in StartInLoop and the one in Retry. */
  function Connect(s: Conn, o: Outcome, otherStops: bool, callbackStops: bool): Conn {
    if o == NoSocket then Report(s, callbackStops)
    else
      Opened(MakeSocket(s, otherStops), s.nextSock, o, callbackStops)
  }

  function Start(s: Conn, o: Outcome, otherStops: bool, callbackStops: bool): Conn {
    if s.connect && s.state == Disconnected then Connect(s, o, otherStops, callbackStops) else s
  }

  function TimerFires(s: Conn, o: Outcome, otherStops: bool, callbackStops: bool): Conn {
    Start(s.(timer := false), o, otherStops, callbackStops)
  }

  /** HandleWrite: ok says that SO_ERROR is zero and the socket is not connected to itself. On success
      the socket goes to TcpClient::NewConnection, which keeps it or closes it. */
  function HandleWrite(s: Conn, ok: bool, callbackStops: bool): Conn
    requires s.state == Connecting ==> s.channel.Some?
  {
    if s.state != Connecting then s
    else
      var sock := s.channel.value;
      var t := s.(pending := s.pending + [ResetChannel]);
      if !ok then Retry(t, sock, callbackStops)
      else
        var u := t.(state := Connected, delay := INIT_DELAY, waits := []);
        if u.connect && u.wanted then u.(handed := u.handed + multiset{sock}) else CloseSock(u, sock)
  }

  datatype Step =
    | Run(o: Outcome, otherStops: bool, callbackStops: bool)  // the next queued functor
    | Timer(o: Outcome, otherStops: bool, callbackStops: bool)
    | Writable(ok: bool, callbackStops: bool)
    | StopHere
    | StopElsewhere
    | Disconnect  // TcpClient::Disconnect: the connector is not told

  ghost predicate Enabled(s: Conn, step: Step) {
    match step
    case Run(_, _, _) => s.pending != []
    case Timer(_, _, _) => s.timer
    case Writable(_, _) => s.state == Connecting ==> s.channel.Some?
    case _ => true
  }

  function RunFunctor(s: Conn, f: Functor, o: Outcome, otherStops: bool, callbackStops: bool): Conn {
    match f
    case StartInLoop => Start(s, o, otherStops, callbackStops)
    case StopInLoop => StopInLoopNow(s)
    case ResetChannel => s.(channel := None)
  }

  function Next(s: Conn, step: Step): Conn
    requires Enabled(s, step)
  {
    match step
    case Run(o, a, b) => RunFunctor(s.(pending := s.pending[1..]), s.pending[0], o, a, b)
    case Timer(o, a, b) => TimerFires(s, o, a, b)
    case Writable(ok, b) => HandleWrite(s, ok, b)
    case StopHere => StopFromLoop(s)
    case StopElsewhere => StopFromOther(s)
    case Disconnect => s.(wanted := false)
  }

  /** A retry waits at least half a second, so the loop runs the queued ResetChannel before the timer fires. It
      matters only for a retry that gets a connect under way. */
  predicate Prompt(s: Conn, step: Step) {
    step.Timer? && s.connect && step.o == InProgress ==> ResetChannel !in s.pending
  }

  ghost predicate IsRun(s: Conn, steps: seq<Step>)
    decreases steps
  {
    steps == [] || (Enabled(s, steps[0]) && Prompt(s, steps[0]) && IsRun(Next(s, steps[0]), steps[1..]))
  }

  ghost function After(s: Conn, steps: seq<Step>): Conn
    requires IsRun(s, steps)
    decreases steps
  {
    if steps == [] then s else After(Next(s, steps[0]), steps[1..])
  }
}

module ConnectorTheorems {
  import opened Prelude
  import opened ConnectorSpec

  function Pow2(k: nat): real {
    if k == 0 then 1.0 else 2.0 * Pow2(k - 1)
  }

  /** The delay of the k-th consecutive retry. */
  function Backoff(k: nat): real {
    if INIT_DELAY * Pow2(k) < MAX_DELAY then INIT_DELAY * Pow2(k) else MAX_DELAY
  }

  lemma {:induction false} Pow2Grows(k: nat)
    ensures Pow2(k) >= 1.0
  {
    if k > 0 { Pow2Grows(k - 1); }
  }

  lemma BackoffDoubles(k: nat)
    ensures Backoff(k + 1) == if Backoff(k) * 2.0 < MAX_DELAY then Backoff(k) * 2.0 else MAX_DELAY
  {
    Pow2Grows(k);
    assert Pow2(k + 1) == 2.0 * Pow2(k);
  }

  predicate Owned(s: Conn, sock: Sock) {
    s.state == Connecting && s.channel == Some(sock)
  }

  /** Every socket opened so far is closed once, or handed over once, or owned by the connector: exactly one of these. */
  ghost predicate Ledger(s: Conn) {
    forall k: Sock ::
      s.closed[k] + s.handed[k] + (if Owned(s, k) then 1 else 0) == if k < s.nextSock then 1 else 0
  }

  ghost predicate Delays(s: Conn) {
    && s.delay == Backoff(|s.waits|)
    && forall k :: 0 <= k < |s.waits| ==> s.waits[k] == Backoff(k)
  }

  ghost predicate Shape(s: Conn) {
    && (s.state == Connecting ==> s.channel.Some? && ResetChannel !in s.pending)
    && (s.timer ==> s.state == Disconnected && s.nextSock > 0)
    && (StartInLoop in s.pending ==>
          s.nextSock == 0 && s.state == Disconnected && s.channel.None? && ResetChannel !in s.pending)
    && multiset(s.pending)[StartInLoop] <= 1
    && (StopInLoop in s.pending ==> !s.connect)
    && (s.stopped ==> !s.connect && s.state != Connecting)
  }

  ghost predicate Inv(s: Conn) {
    Ledger(s) && Delays(s) && Shape(s)
  }

  // ---------- Each move keeps the invariant ----------

  /** Books in which one socket is in flight: opened, but neither owned nor closed nor handed over. */
  ghost predicate InFlight(s: Conn, sock: Sock) {
    && sock < s.nextSock && s.state != Connecting
    && forall k: Sock :: s.closed[k] + s.handed[k] == if k < s.nextSock && k != sock then 1 else 0
  }

  lemma RetryKeeps(s: Conn, sock: Sock, callbackStops: bool)
    requires InFlight(s.(state := Disconnected), sock) && Delays(s)
    requires !s.timer && StartInLoop !in s.pending && multiset(s.pending)[StartInLoop] <= 1
    requires s.stopped || StopInLoop in s.pending ==> !s.connect
    ensures var t := Retry(s, sock, callbackStops);
      && Inv(t) && t.nextSock == s.nextSock && t.state == Disconnected
      && t.pending == s.pending
  {
    BackoffDoubles(|s.waits|);
  }

  lemma StopKeeps(s: Conn)
    requires Inv(s) && !s.connect
    ensures Inv(StopInLoopNow(s)) && StopInLoopNow(s).nextSock == s.nextSock
  {
  }

  /** A socket has just been opened and nothing else is under way. */
  ghost predicate JustOpened(t: Conn, sock: Sock) {
    && InFlight(t, sock) && Delays(t) && t.state == Disconnected && !t.timer && !t.stopped
    && StartInLoop !in t.pending && multiset(t.pending)[StartInLoop] <= 1
    && (StopInLoop in t.pending ==> !t.connect)
  }

  lemma OpenInFlight(s: Conn, otherStops: bool)
    requires Inv(s) && s.state == Disconnected && !s.timer && s.connect && StartInLoop !in s.pending
    ensures JustOpened(MakeSocket(s, otherStops), s.nextSock)
  {
    assert forall k: Sock :: !Owned(s, k);
    assert s.closed[s.nextSock] + s.handed[s.nextSock] == 0;
  }

  lemma ReportKeeps(s: Conn, callbackStops: bool)
    requires Inv(s)
    ensures Inv(Report(s, callbackStops))
  {
    var t := s.(connect := false, wanted := false);
    forall k: Sock ensures Owned(t, k) == Owned(s, k) {}
    assert Inv(t);
    StopKeeps(t);
  }

  lemma SettledKeeps(t: Conn, sock: Sock)
    requires JustOpened(t, sock)
    ensures Inv(CloseSock(t, sock))
    ensures ResetChannel !in t.pending ==> Inv(t.(state := Connecting, channel := Some(sock)))
  {
    var owning := t.(state := Connecting, channel := Some(sock));
    forall k: Sock ensures Owned(owning, k) <==> k == sock {}
    forall k: Sock ensures !Owned(CloseSock(t, sock), k) {}
  }

  lemma OpenedKeeps(t: Conn, sock: Sock, o: Outcome, callbackStops: bool)
    requires JustOpened(t, sock) && (o == InProgress ==> ResetChannel !in t.pending)
    ensures Inv(Opened(t, sock, o, callbackStops))
  {
    match o
    case InProgress => SettledKeeps(t, sock);
    case Retryable =>
      assert t.(state := Disconnected) == t;
      RetryKeeps(t, sock, callbackStops);
    case _ =>
      SettledKeeps(t, sock);
      ReportKeeps(CloseSock(t, sock), callbackStops);
  }

  lemma ConnectKeeps(s: Conn, o: Outcome, otherStops: bool, callbackStops: bool)
    requires Inv(s) && s.state == Disconnected && !s.timer && s.connect && StartInLoop !in s.pending
    requires o == InProgress ==> ResetChannel !in s.pending
    ensures Inv(Connect(s, o, otherStops, callbackStops))
  {
    if o == NoSocket {
      ReportKeeps(s, callbackStops);
    } else {
      var t := MakeSocket(s, otherStops);
      OpenInFlight(s, otherStops);
      OpenedKeeps(t, s.nextSock, o, callbackStops);
    }
  }

  lemma WriteKeeps(s: Conn, ok: bool, callbackStops: bool)
    requires Inv(s)
    ensures Inv(HandleWrite(s, ok, callbackStops)) && HandleWrite(s, ok, callbackStops).nextSock == s.nextSock
  {
    if s.state == Connecting {
      var sock := s.channel.value;
      var t := s.(pending := s.pending + [ResetChannel]);
      assert Owned(s, sock);
      assert InFlight(s.(state := Disconnected), sock);
      if !ok {
        RetryKeeps(t, sock, callbackStops);
      } else {
        assert Backoff(0) == INIT_DELAY;
      }
    }
  }

  /** What the queue promises about its first functor once it is popped. */
  ghost predicate Popped(t: Conn, f: Functor) {
    && Inv(t)
    && (f == StartInLoop ==> StartInLoop !in t.pending && ResetChannel !in t.pending && !t.timer)
    && (f == StopInLoop ==> !t.connect)
    && (f == ResetChannel ==> t.state != Connecting)
  }

  lemma PopKeeps(s: Conn)
    requires Inv(s) && s.pending != []
    ensures Popped(s.(pending := s.pending[1..]), s.pending[0])
  {
    var t := s.(pending := s.pending[1..]);
    assert s.pending == [s.pending[0]] + t.pending;
    assert multiset(s.pending) == multiset{s.pending[0]} + multiset(t.pending);
    assert forall f :: f in t.pending ==> f in s.pending;
    assert s.pending[0] in s.pending;
    assert StartInLoop in t.pending <==> multiset(t.pending)[StartInLoop] > 0;
    forall k: Sock ensures Owned(t, k) == Owned(s, k) {}
  }

  lemma RunFunctorKeeps(t: Conn, f: Functor, o: Outcome, otherStops: bool, callbackStops: bool)
    requires Popped(t, f)
    ensures Inv(RunFunctor(t, f, o, otherStops, callbackStops))
  {
    match f
    case StartInLoop => if t.connect && t.state == Disconnected { ConnectKeeps(t, o, otherStops, callbackStops); }
    case StopInLoop => StopKeeps(t);
    case ResetChannel =>
      forall k: Sock ensures !Owned(t, k) {}
  }

  lemma TimerKeeps(s: Conn, o: Outcome, otherStops: bool, callbackStops: bool)
    requires Inv(s) && s.timer && (s.connect && o == InProgress ==> ResetChannel !in s.pending)
    ensures Inv(TimerFires(s, o, otherStops, callbackStops))
  {
    var t := s.(timer := false);
    forall k: Sock ensures Owned(t, k) == Owned(s, k) {}
    assert Inv(t);
    if t.connect { ConnectKeeps(t, o, otherStops, callbackStops); }
  }

  lemma StopFromKeeps(s: Conn)
    requires Inv(s)
    ensures Inv(StopFromLoop(s)) && Inv(StopFromOther(s)) && Inv(s.(wanted := false))
  {
    ReportKeeps(s, true);
    forall k: Sock ensures Owned(StopFromOther(s), k) == Owned(s, k) {}
    forall k: Sock ensures Owned(s.(wanted := false), k) == Owned(s, k) {}
  }

  lemma StepKeeps(s: Conn, step: Step)
    requires Inv(s) && Enabled(s, step) && Prompt(s, step)
    ensures Inv(Next(s, step))
  {
    match step
    case Run(o, a, b) =>
      PopKeeps(s);
      RunFunctorKeeps(s.(pending := s.pending[1..]), s.pending[0], o, a, b);
    case Timer(o, a, b) => TimerKeeps(s, o, a, b);
    case Writable(ok, b) => WriteKeeps(s, ok, b);
    case _ => StopFromKeeps(s);
  }

  lemma {:induction false} RunKeeps(s: Conn, steps: seq<Step>)
    requires Inv(s) && IsRun(s, steps)
    ensures Inv(After(s, steps))
    decreases steps
  {
    if steps != [] {
      StepKeeps(s, steps[0]);
      RunKeeps(Next(s, steps[0]), steps[1..]);
    }
  }

  lemma StartHolds()
    ensures Inv(START)
  {
    assert Backoff(0) == INIT_DELAY;
  }

  // ---------- Main results ----------

  /** Over every run, each opened socket is closed exactly once, or handed over exactly once, or still owned. */
  lemma EverySocketOnce(steps: seq<Step>, sock: Sock)
    requires IsRun(START, steps)
    ensures var s := After(START, steps);
      && s.closed[sock] + s.handed[sock] + (if Owned(s, sock) then 1 else 0) == (if sock < s.nextSock then 1 else 0)
      && (s.state == Connecting ==> s.channel.Some?)
  {
    StartHolds();
    RunKeeps(START, steps);
  }

  /** Once a StopInLoop has run the books are closed: every socket opened so far has been closed or handed over. */
  lemma StopLeavesNothingOpen(steps: seq<Step>, sock: Sock)
    requires IsRun(START, steps) && After(START, steps).stopped
    ensures var s := After(START, steps);
      s.closed[sock] + s.handed[sock] == if sock < s.nextSock then 1 else 0
  {
    StartHolds();
    RunKeeps(START, steps);
  }

  lemma NoSocketWithoutConnect(s: Conn, step: Step)
    requires Enabled(s, step) && !s.connect
    ensures Next(s, step).nextSock == s.nextSock && !Next(s, step).connect
  {
  }

  /** After Stop cleared connect_ no step opens a socket, however long the run. */
  lemma {:induction false} NoSocketAfterStop(s: Conn, steps: seq<Step>)
    requires IsRun(s, steps) && !s.connect
    ensures After(s, steps).nextSock == s.nextSock && !After(s, steps).connect
    decreases steps
  {
    if steps != [] {
      NoSocketWithoutConnect(s, steps[0]);
      NoSocketAfterStop(Next(s, steps[0]), steps[1..]);
    }
  }

  /** The step starts a connect: by the queued start, or by the timer, while one is wanted and none is under way. */
  predicate Starts(s: Conn, step: Step) {
    && s.connect && s.state == Disconnected
    && (step.Timer? || (step.Run? && s.pending != [] && s.pending[0] == StartInLoop))
  }

  /** The step ends an attempt to connect in a way that is worth another one: an error of connect() that no stop of
      another thread overtook, or a failed socket under way, while connecting is still wanted. */
  predicate WorthRetry(s: Conn, step: Step) {
    match step
    case Run(o, otherStops, _) => Starts(s, step) && o == Retryable && !otherStops
    case Timer(o, otherStops, _) => Starts(s, step) && o == Retryable && !otherStops
    case Writable(ok, _) => s.state == Connecting && !ok && s.connect
    case _ => false
  }

  predicate Connects(s: Conn, step: Step) {
    step.Writable? && s.state == Connecting && step.ok
  }

  /** The step cancels the retry timer, or is the timer itself. */
  predicate TakesTimer(s: Conn, step: Step) {
    match step
    case Timer(_, _, _) => true
    case StopHere => true
    case Run(o, _, callbackStops) =>
      s.pending != [] &&
      (s.pending[0] == StopInLoop ||
       (Starts(s, step) && callbackStops && (o == NoSocket || o == BadAddress || o == Fatal)))
    case _ => false
  }

  /** What a move does to the waits, the timer, the count of sockets and the hand-overs. */
  ghost predicate Effect(s: Conn, t: Conn, retried: bool, timer: bool, sockets: nat) {
    && t.waits == (if retried then s.waits + [s.delay] else s.waits)
    && t.timer == timer && t.nextSock == s.nextSock + sockets && t.handed == s.handed
  }

  lemma ReportDoes(s: Conn, callbackStops: bool)
    ensures Effect(s, Report(s, callbackStops), false, s.timer && !callbackStops, 0)
    ensures Report(s, callbackStops).delay == s.delay
  {
  }

  lemma RetryDoes(s: Conn, sock: Sock, callbackStops: bool)
    ensures Effect(s, Retry(s, sock, callbackStops), s.connect, s.connect || s.timer, 0)
  {
    ReportDoes(CloseSock(s, sock).(state := Disconnected), callbackStops);
  }

  lemma OpenedDoes(s: Conn, sock: Sock, o: Outcome, callbackStops: bool)
    ensures Effect(s, Opened(s, sock, o, callbackStops), o == Retryable && s.connect,
      match o
      case InProgress => s.timer
      case Retryable => s.connect || s.timer
      case _ => s.timer && !callbackStops, 0)
  {
    RetryDoes(s, sock, callbackStops);
    ReportDoes(CloseSock(s, sock), callbackStops);
  }

  lemma MakeSocketDoes(s: Conn, otherStops: bool)
    ensures var t := MakeSocket(s, otherStops);
      Effect(s, t, false, s.timer, 1) && t.connect == (s.connect && !otherStops) && t.delay == s.delay
  {
  }

  lemma StartDoes(s: Conn, o: Outcome, otherStops: bool, callbackStops: bool)
    ensures var begins := s.connect && s.state == Disconnected;
      var retried := begins && o == Retryable && !otherStops;
      Effect(s, Start(s, o, otherStops, callbackStops), retried,
        retried || (s.timer && !(begins && callbackStops && o != InProgress && o != Retryable)),
        if begins && o != NoSocket then 1 else 0)
  {
    MakeSocketDoes(s, otherStops);
    OpenedDoes(MakeSocket(s, otherStops), s.nextSock, o, callbackStops);
    ReportDoes(s, callbackStops);
  }

  lemma HandleWriteDoes(s: Conn, ok: bool, callbackStops: bool)
    requires s.state == Connecting ==> s.channel.Some?
    ensures var t := HandleWrite(s, ok, callbackStops);
      && (s.state == Connecting && ok ==>
            && t.waits == [] && t.timer == s.timer && t.nextSock == s.nextSock
            && t.handed == s.handed + if s.connect && s.wanted then multiset{s.channel.value} else multiset{})
      && (s.state == Connecting && !ok ==> Effect(s, t, s.connect, s.connect || s.timer, 0))
      && (s.state != Connecting ==> t == s)
  {
    if s.state == Connecting && !ok {
      RetryDoes(s.(pending := s.pending + [ResetChannel]), s.channel.value, callbackStops);
    }
  }

  lemma FunctorDoes(s: Conn, f: Functor, o: Outcome, otherStops: bool, callbackStops: bool)
    ensures f == StopInLoop ==> Effect(s, RunFunctor(s, f, o, otherStops, callbackStops), false, false, 0)
    ensures f == ResetChannel ==> Effect(s, RunFunctor(s, f, o, otherStops, callbackStops), false, s.timer, 0)
  {
  }

  ghost predicate StepEffect(s: Conn, step: Step, t: Conn)
    requires Enabled(s, step)
  {
    && t.waits == (if WorthRetry(s, step) then s.waits + [s.delay] else if Connects(s, step) then [] else s.waits)
    && t.timer == (WorthRetry(s, step) || (s.timer && !TakesTimer(s, step)))
    && t.nextSock == s.nextSock + (if Starts(s, step) && step.o != NoSocket then 1 else 0)
    && t.handed == s.handed +
         if Connects(s, step) && s.connect && s.wanted then multiset{s.channel.value} else multiset{}
  }

  lemma RunDoes(s: Conn, step: Step, u: Conn)
    requires Enabled(s, step) && step.Run? && u == s.(pending := s.pending[1..])
    ensures StepEffect(s, step, RunFunctor(u, s.pending[0], step.o, step.otherStops, step.callbackStops))
  {
    FunctorDoes(u, s.pending[0], step.o, step.otherStops, step.callbackStops);
    StartDoes(u, step.o, step.otherStops, step.callbackStops);
  }

  lemma TimerDoes(s: Conn, step: Step)
    requires Enabled(s, step) && step.Timer?
    ensures StepEffect(s, step, TimerFires(s, step.o, step.otherStops, step.callbackStops))
  {
    StartDoes(s.(timer := false), step.o, step.otherStops, step.callbackStops);
  }

  lemma WritableDoes(s: Conn, step: Step)
    requires Enabled(s, step) && step.Writable?
    ensures StepEffect(s, step, HandleWrite(s, step.ok, step.callbackStops))
  {
    HandleWriteDoes(s, step.ok, step.callbackStops);
  }

  lemma StepDoes(s: Conn, step: Step)
    requires Enabled(s, step)
    ensures StepEffect(s, step, Next(s, step))
  {
    match step
    case Run(_, _, _) => RunDoes(s, step, s.(pending := s.pending[1..]));
    case Timer(_, _, _) => TimerDoes(s, step);
    case Writable(_, _) => WritableDoes(s, step);
    case _ =>
  }

  /** A retry is armed for exactly what is worth it, with the current delay; a success begins anew. */
  lemma RetryIffWorth(s: Conn, step: Step)
    requires Enabled(s, step)
    ensures var t := Next(s, step);
      && t.waits == (if WorthRetry(s, step) then s.waits + [s.delay] else if Connects(s, step) then [] else s.waits)
      && (t.timer <==> WorthRetry(s, step) || (s.timer && !TakesTimer(s, step)))
  {
    StepDoes(s, step);
  }

  /** How many retries in a row the run ends with. */
  ghost function RetriesInARow(s: Conn, steps: seq<Step>, so_far: nat): nat
    requires IsRun(s, steps)
    decreases steps
  {
    if steps == [] then so_far
    else
      RetriesInARow(Next(s, steps[0]), steps[1..],
                    if WorthRetry(s, steps[0]) then so_far + 1 else if Connects(s, steps[0]) then 0 else so_far)
  }

  lemma WaitsCount(s: Conn, step: Step)
    requires Enabled(s, step)
    ensures |Next(s, step).waits|
      == if WorthRetry(s, step) then |s.waits| + 1 else if Connects(s, step) then 0 else |s.waits|
  {
    RetryIffWorth(s, step);
  }

  lemma {:induction false} WaitsAreRetries(s: Conn, steps: seq<Step>)
    requires IsRun(s, steps)
    ensures |After(s, steps).waits| == RetriesInARow(s, steps, |s.waits|)
    decreases steps
  {
    if steps != [] {
      WaitsCount(s, steps[0]);
      WaitsAreRetries(Next(s, steps[0]), steps[1..]);
    }
  }

  /** The k-th retry in a row, counted from 0, waits min(0.5 * 2^k, 30) seconds; how many there are in a row is read off
      the run. */
  lemma RetryDelays(steps: seq<Step>, k: nat)
    requires IsRun(START, steps)
    ensures var s := After(START, steps);
      && |s.waits| == RetriesInARow(START, steps, 0)
      && s.delay == Backoff(|s.waits|)
      && (k < |s.waits| ==> s.waits[k] == Backoff(k))
      && INIT_DELAY <= s.delay <= MAX_DELAY
  {
    StartHolds();
    RunKeeps(START, steps);
    WaitsAreRetries(START, steps);
    Pow2Grows(|After(START, steps).waits|);
  }

  /** A socket is opened by exactly the steps that start a connect and get one. */
  lemma OpensIff(s: Conn, step: Step)
    requires Enabled(s, step)
    ensures Next(s, step).nextSock == s.nextSock + if Starts(s, step) && step.o != NoSocket then 1 else 0
  {
    StepDoes(s, step);
  }

  lemma StopIsNoSuccess(s: Conn)
    ensures StopInLoopNow(s).state == Connected <==> s.state == Connected
  {
  }

  lemma ReportIsNoSuccess(s: Conn, callbackStops: bool)
    ensures Report(s, callbackStops).state == Connected <==> s.state == Connected
  {
    StopIsNoSuccess(s.(connect := false, wanted := false));
  }

  lemma RetryIsNoSuccess(s: Conn, sock: Sock, callbackStops: bool)
    ensures Retry(s, sock, callbackStops).state != Connected
  {
    ReportIsNoSuccess(CloseSock(s, sock).(state := Disconnected), callbackStops);
  }

  lemma StartIsNoSuccess(s: Conn, o: Outcome, otherStops: bool, callbackStops: bool)
    ensures Start(s, o, otherStops, callbackStops).state == Connected <==> s.state == Connected
  {
    var t := MakeSocket(s, otherStops);
    assert t.state == s.state;
    ReportIsNoSuccess(s, callbackStops);
    ReportIsNoSuccess(CloseSock(t, s.nextSock), callbackStops);
    RetryIsNoSuccess(t, s.nextSock, callbackStops);
  }

  lemma FunctorIsNoSuccess(s: Conn, f: Functor, o: Outcome, otherStops: bool, callbackStops: bool)
    ensures RunFunctor(s, f, o, otherStops, callbackStops).state == Connected <==> s.state == Connected
  {
    StartIsNoSuccess(s, o, otherStops, callbackStops);
    StopIsNoSuccess(s);
  }

  lemma WritableSucceedsIff(s: Conn, ok: bool, callbackStops: bool)
    requires s.state == Connecting ==> s.channel.Some?
    ensures HandleWrite(s, ok, callbackStops).state == Connected
      <==> s.state == Connected || (s.state == Connecting && ok)
  {
    if s.state == Connecting && !ok {
      RetryIsNoSuccess(s.(pending := s.pending + [ResetChannel]), s.channel.value, callbackStops);
    }
  }

  /** A connector is connected from its first success on. */
  lemma ConnectedIff(s: Conn, step: Step)
    requires Enabled(s, step)
    ensures Next(s, step).state == Connected <==> s.state == Connected || Connects(s, step)
  {
    match step
    case Run(o, a, b) => FunctorIsNoSuccess(s.(pending := s.pending[1..]), s.pending[0], o, a, b);
    case Timer(o, a, b) => StartIsNoSuccess(s.(timer := false), o, a, b);
    case Writable(ok, b) => WritableSucceedsIff(s, ok, b);
    case StopHere => StopIsNoSuccess(s.(connect := false, wanted := false));
    case _ =>
  }

  /** The step calls Stop: here, from another thread, or in answer to a failure that is reported. */
  predicate Stops(s: Conn, step: Step) {
    match step
    case StopHere => true
    case StopElsewhere => true
    case Disconnect => false
    case Writable(ok, callbackStops) => s.state == Connecting && !ok && s.connect && callbackStops
    case Run(o, otherStops, callbackStops) =>
      Starts(s, step) && ((otherStops && o != NoSocket) || (callbackStops && o != InProgress))
    case Timer(o, otherStops, callbackStops) =>
      Starts(s, step) && ((otherStops && o != NoSocket) || (callbackStops && o != InProgress))
  }

  ghost predicate Flags(s: Conn, t: Conn, stopped: bool) {
    t.connect == (s.connect && !stopped) && t.wanted == (s.wanted && !stopped)
  }

  lemma ReportFlags(s: Conn, callbackStops: bool)
    ensures Flags(s, Report(s, callbackStops), callbackStops)
  {
  }

  lemma RetryFlags(s: Conn, sock: Sock, callbackStops: bool)
    ensures Flags(s, Retry(s, sock, callbackStops), s.connect && callbackStops)
  {
    ReportFlags(CloseSock(s, sock).(state := Disconnected), callbackStops);
  }

  lemma StartFlags(s: Conn, o: Outcome, otherStops: bool, callbackStops: bool)
    ensures Flags(s, Start(s, o, otherStops, callbackStops),
      s.connect && s.state == Disconnected && ((otherStops && o != NoSocket) || (callbackStops && o != InProgress)))
  {
    var t := MakeSocket(s, otherStops);
    ReportFlags(s, callbackStops);
    ReportFlags(CloseSock(t, s.nextSock), callbackStops);
    RetryFlags(t, s.nextSock, callbackStops);
  }

  lemma FunctorFlags(s: Conn, f: Functor, o: Outcome, otherStops: bool, callbackStops: bool)
    requires f != StartInLoop
    ensures Flags(s, RunFunctor(s, f, o, otherStops, callbackStops), false)
  {
  }

  lemma WritableFlags(s: Conn, ok: bool, callbackStops: bool)
    requires s.state == Connecting ==> s.channel.Some?
    ensures Flags(s, HandleWrite(s, ok, callbackStops), s.state == Connecting && !ok && s.connect && callbackStops)
  {
    if s.state == Connecting { RetryFlags(s.(pending := s.pending + [ResetChannel]), s.channel.value, callbackStops); }
  }

  /** Connecting is wanted until somebody stops it; the owner may also lose interest alone. */
  lemma WantedUntilStopped(s: Conn, step: Step)
    requires Enabled(s, step)
    ensures var t := Next(s, step);
      && (t.connect <==> s.connect && !Stops(s, step))
      && (t.wanted <==> s.wanted && !Stops(s, step) && step != Disconnect)
  {
    match step
    case Run(o, a, b) =>
      var u := s.(pending := s.pending[1..]);
      if s.pending[0] == StartInLoop { StartFlags(u, o, a, b); } else { FunctorFlags(u, s.pending[0], o, a, b); }
    case Timer(o, a, b) => StartFlags(s.(timer := false), o, a, b);
    case Writable(ok, b) => WritableFlags(s, ok, b);
    case _ =>
  }

  /** The owner gets exactly the sockets that connect while both it and the connector want them. */
  lemma HandedIffWanted(s: Conn, step: Step)
    requires Enabled(s, step)
    ensures Next(s, step).handed == s.handed +
      if Connects(s, step) && s.connect && s.wanted then multiset{s.channel.value} else multiset{}
  {
    StepDoes(s, step);
  }

  // ---------- A timer that fires early ----------

  /** The functors of one round of the loop, with nothing in between; what they queue is for the next round. */
  function RunAll(s: Conn, functors: seq<Functor>): Conn
    decreases functors
  {
    if functors == [] then s else RunAll(RunFunctor(s, functors[0], NoSocket, false, false), functors[1..])
  }

  function Drain(s: Conn): Conn {
    RunAll(s.(pending := []), s.pending)
  }

  /** Nothing but the clearing of the channel, and then perhaps a stop. */
  predicate ResetsThenStops(functors: seq<Functor>) {
    functors == [] ||
    (functors[0] == ResetChannel && ResetsThenStops(functors[1..])) ||
    (functors[0] == StopInLoop && forall i :: 0 <= i < |functors| ==> functors[i] == StopInLoop)
  }

  ghost predicate Settled(s: Conn) {
    s.state == Disconnected && forall k: Sock :: s.closed[k] + s.handed[k] == if k < s.nextSock then 1 else 0
  }

  /** Without a connect under way the functors change nothing that the ledger counts. */
  lemma {:induction false} SettledStays(s: Conn, functors: seq<Functor>)
    requires Settled(s) && StartInLoop !in functors
    ensures Settled(RunAll(s, functors))
    decreases functors
  {
    if functors != [] {
      assert functors[0] != StartInLoop;
      SettledStays(RunFunctor(s, functors[0], NoSocket, false, false), functors[1..]);
    }
  }

  /** A socket that is connecting and on no channel any more: no functor finds it. */
  ghost predicate Lost(s: Conn, sock: Sock) {
    s.state == Connecting && s.channel.None? && sock < s.nextSock && s.closed[sock] + s.handed[sock] == 0
  }

  lemma {:induction false} LostStays(s: Conn, sock: Sock, functors: seq<Functor>)
    requires Lost(s, sock) && StartInLoop !in functors
    ensures Lost(RunAll(s, functors), sock)
    decreases functors
  {
    if functors != [] {
      assert functors[0] != StartInLoop;
      LostStays(RunFunctor(s, functors[0], NoSocket, false, false), sock, functors[1..]);
    }
  }

  /** A connect under way on its channel survives a round without a reset, or is closed by a stop. */
  lemma {:induction false} OwnedOrClosed(s: Conn, functors: seq<Functor>)
    requires Ledger(s) && ((s.state == Connecting && s.channel.Some?) || s.state == Disconnected)
    requires StartInLoop !in functors && ResetChannel !in functors
    ensures Ledger(RunAll(s, functors))
    decreases functors
  {
    if functors != [] {
      assert functors[0] == StopInLoop;
      var t := StopInLoopNow(s);
      if s.state == Connecting {
        var sock := s.channel.value;
        assert Owned(s, sock);
        forall k: Sock ensures !Owned(t, k) && (k != sock ==> !Owned(s, k)) {}
      } else {
        forall k: Sock ensures Owned(t, k) == Owned(s, k) {}
      }
      assert Ledger(t);
      OwnedOrClosed(t, functors[1..]);
    }
  }

  lemma {:induction false} ResetLoses(s: Conn, sock: Sock, functors: seq<Functor>)
    requires s.state == Connecting && s.channel == Some(sock) && sock < s.nextSock
    requires s.closed[sock] + s.handed[sock] == 0
    requires ResetChannel in functors && ResetsThenStops(functors) && StartInLoop !in functors
    ensures Lost(RunAll(s, functors), sock)
  {
    assert functors[0] == ResetChannel;
    LostStays(s.(channel := None), sock, functors[1..]);
  }

  lemma {:induction false} ResetsBeforeStop(functors: seq<Functor>)
    requires StartInLoop !in functors && StopInLoop !in functors
    ensures ResetsThenStops(functors) && ResetsThenStops(functors + [StopInLoop])
  {
    if functors != [] {
      assert functors[0] == ResetChannel;
      ResetsBeforeStop(functors[1..]);
      assert (functors + [StopInLoop])[1..] == functors[1..] + [StopInLoop];
    }
  }

  /** What a retry that gets a connect under way leaves: one more socket, connecting on a new channel. */
  lemma RetryUnderWay(s: Conn, otherStops: bool, callbackStops: bool)
    requires Inv(s) && s.timer && s.connect
    ensures var t := TimerFires(s, InProgress, otherStops, callbackStops);
      && t.state == Connecting && t.channel == Some(s.nextSock) && t.nextSock == s.nextSock + 1
      && t.closed == s.closed && t.handed == s.handed && Ledger(t)
      && t.pending == (if otherStops then s.pending + [StopInLoop] else s.pending)
      && s.closed[s.nextSock] + s.handed[s.nextSock] == 0
    ensures StartInLoop !in s.pending && StopInLoop !in s.pending
  {
    forall k: Sock ensures !Owned(s, k) {}
    var t := TimerFires(s, InProgress, otherStops, callbackStops);
    forall k: Sock ensures Owned(t, k) <==> k == s.nextSock {}
  }

  lemma DrainAfterRetry(s: Conn, otherStops: bool, callbackStops: bool)
    requires Inv(s) && s.timer && s.connect
    ensures Ledger(Drain(TimerFires(s, InProgress, otherStops, callbackStops))) <==> ResetChannel !in s.pending
  {
    RetryUnderWay(s, otherStops, callbackStops);
    var t := TimerFires(s, InProgress, otherStops, callbackStops);
    var u := t.(pending := []);
    forall k: Sock ensures Owned(u, k) == Owned(t, k) {}
    if ResetChannel in s.pending {
      ResetsBeforeStop(s.pending);
      ResetLoses(u, s.nextSock, t.pending);
      assert !Owned(Drain(t), s.nextSock);
    } else {
      OwnedOrClosed(u, t.pending);
    }
  }

  /** Every other outcome of the retry leaves no connect under way, and then the ledger does not depend on when
      the functors run. */
  lemma OtherOutcomesSettle(s: Conn, o: Outcome, otherStops: bool, callbackStops: bool)
    requires Inv(s) && s.timer && (o != InProgress || !s.connect)
    ensures Ledger(Drain(TimerFires(s, o, otherStops, callbackStops)))
  {
    var t := TimerFires(s, o, otherStops, callbackStops);
    TimerKeeps(s, o, otherStops, callbackStops);
    NothingUnderWay(s.(timer := false), o, otherStops, callbackStops);
    SettledIsLedger(t);
    SettledStays(t.(pending := []), t.pending);
    SettledIsLedger(Drain(t));
  }

  lemma NothingUnderWay(s: Conn, o: Outcome, otherStops: bool, callbackStops: bool)
    requires s.state == Disconnected && (o != InProgress || !s.connect) && StartInLoop !in s.pending
    ensures var t := Start(s, o, otherStops, callbackStops); t.state == Disconnected && StartInLoop !in t.pending
  {
    var t := MakeSocket(s, otherStops);
    ReportStaysDown(s, callbackStops);
    ReportStaysDown(CloseSock(t, s.nextSock), callbackStops);
  }

  lemma ReportStaysDown(s: Conn, callbackStops: bool)
    requires s.state == Disconnected
    ensures Report(s, callbackStops).state == Disconnected && Report(s, callbackStops).pending == s.pending
  {
  }

  lemma SettledIsLedger(s: Conn)
    requires s.state == Disconnected
    ensures Settled(s) <==> Ledger(s)
  {
    forall k: Sock ensures !Owned(s, k) {}
  }

  /** The retry timer fires and the round goes on with the functors queued so far. Afterwards every socket is still
      closed, handed over or owned exactly if no connect got under way while the functor that clears the old
      channel was waiting. */
  lemma TimerNeedsReset(s: Conn, o: Outcome, otherStops: bool, callbackStops: bool)
    requires Inv(s) && s.timer
    ensures Ledger(Drain(TimerFires(s, o, otherStops, callbackStops)))
      <==> !(s.connect && o == InProgress && ResetChannel in s.pending)
  {
    if s.connect && o == InProgress {
      DrainAfterRetry(s, otherStops, callbackStops);
    } else {
      OtherOutcomesSettle(s, o, otherStops, callbackStops);
    }
  }

  /** Such a run: the second socket ends up neither owned nor closed nor handed over. */
  lemma EarlyTimerLosesSocket()
    ensures var a := Next(START, Run(InProgress, false, false));
      var b := Next(a, Writable(false, false));
      var c := Next(b, Timer(InProgress, false, false));
      var d := Next(c, Run(InProgress, false, false));
      && b.pending == [ResetChannel] && d.nextSock == 2
      && !Owned(d, 1) && d.closed[1] == 0 && d.handed[1] == 0
  {
    var a := Next(START, Run(InProgress, false, false));
    assert a == START.(pending := [], nextSock := 1, state := Connecting, channel := Some(0));
    var b := Next(a, Writable(false, false));
    assert b.pending == [ResetChannel];
  }
}

module ConnectorCode {
  import opened Prelude
  import opened ConnectorSpec

  /** The kernel's socket numbers, with a ghost count of the closes. */
  class Kernel {
    var nextSock: nat
    ghost var closed: multiset<Sock>

    constructor ()
      ensures nextSock == 0 && closed == multiset{}
    {
      nextSock := 0;
      closed := multiset{};
    }

    method Socket() returns (sock: Sock)
      modifies this`nextSock
      ensures sock == old(nextSock) && nextSock == old(nextSock) + 1
    {
      sock := nextSock;
      nextSock := nextSock + 1;
    }

    method Close(sock: Sock)
      modifies this`closed
      ensures closed == old(closed) + multiset{sock}
    {
      closed := closed + multiset{sock};
    }
  }

  /** The owner: it takes a connected socket, or closes it when the connection is no longer wanted. */
  class TcpClient {
    const kernel: Kernel
    var connect: bool
    var connection: Option<Sock>
    ghost var handed: multiset<Sock>

    constructor (kernel: Kernel)
      ensures this.kernel == kernel && connect && connection.None? && handed == multiset{}
    {
      this.kernel := kernel;
      connect := true;
      connection := None;
      handed := multiset{};
    }

    method NewConnection(sock: Sock)
      modifies this`connection, this`handed, kernel`closed
      ensures connection == if connect then Some(sock) else old(connection)
      ensures handed == if connect then old(handed) + multiset{sock} else old(handed)
      ensures kernel.closed == if connect then old(kernel.closed) else old(kernel.closed) + multiset{sock}
    {
      if !connect {
        kernel.Close(sock);
        return;
      }
      connection := Some(sock);
      handed := handed + multiset{sock};
    }

    method RemoveConnection(sock: Sock)
      modifies this`connection
      ensures connection == if old(connection) == Some(sock) then None else old(connection)
    {
      if connection == Some(sock) {
        connection := None;
      }
    }

    method Disconnect()
      modifies this`connect
      ensures !connect
    {
      connect := false;
    }
  }

  class Connector {
    const kernel: Kernel
    const client: TcpClient
    var state: State
    var connect: bool
    var delay: real
    var timer: bool
    var channel: Option<Sock>
    var pending: seq<Functor>
    ghost var waits: seq<real>
    ghost var stopped: bool

    ghost predicate Valid()
      reads this
    {
      client.kernel == kernel
    }

    ghost function View(): Conn
      reads this, client, kernel
    {
      Conn(state, connect, delay, timer, channel, pending, client.connect, kernel.nextSock,
           kernel.closed, client.handed, waits, stopped)
    }

    /** A fresh connector on which Start has been called from outside the loop. */
    constructor (kernel: Kernel, client: TcpClient)
      requires client.kernel == kernel
      requires client.connect && client.handed == multiset{} && kernel.nextSock == 0 && kernel.closed == multiset{}
      ensures Valid() && View() == START && this.client == client && this.kernel == kernel
    {
      this.kernel := kernel;
      this.client := client;
      state := Disconnected;
      connect := true;
      delay := INIT_DELAY;
      timer := false;
      channel := None;
      pending := [ConnectorSpec.StartInLoop];
      waits := [];
      stopped := false;
    }

    method RemoveAndResetChannel() returns (sock: Sock)
      requires Valid() && channel.Some?
      modifies this`pending
      ensures Valid() && sock == channel.value
      ensures View() == old(View()).(pending := old(pending) + [ResetChannel])
    {
      sock := channel.value;
      pending := pending + [ResetChannel];
    }

    method StopInLoop()
      requires Valid()
      modifies this, kernel`closed
      ensures Valid() && View() == StopInLoopNow(old(View()))
    {
      stopped := true;
      if timer {
        timer := false;
      }
      if state == Connecting && channel.Some? {
        state := Disconnected;
        var sock := RemoveAndResetChannel();
        kernel.Close(sock);
      }
    }

    /** TcpClient::Stop and Connector::Stop: on the loop thread the functor runs at once. */
    method Stop(onLoop: bool)
      requires Valid()
      modifies this, client`connect, kernel`closed
      ensures Valid() && View() == if onLoop then StopFromLoop(old(View())) else StopFromOther(old(View()))
    {
      client.connect := false;
      connect := false;
      if onLoop {
        StopInLoop();
      } else {
        pending := pending + [ConnectorSpec.StopInLoop];
      }
    }

    method ErrorCallback(stops: bool)
      requires Valid()
      modifies this, client`connect, kernel`closed
      ensures Valid() && View() == Report(old(View()), stops)
    {
      if stops {
        Stop(true);
      }
    }

    method RunAfter()
      requires Valid()
      modifies this`timer, this`waits, this`delay
      ensures Valid() && View() == ConnectorSpec.RunAfter(old(View()))
    {
      timer := true;
      waits := waits + [delay];
      var twice := delay * 2.0;
      delay := if twice < MAX_DELAY then twice else MAX_DELAY;
    }

    method Retry(sock: Sock, callbackStops: bool)
      requires Valid()
      modifies this, client`connect, kernel`closed
      ensures Valid() && View() == ConnectorSpec.Retry(old(View()), sock, callbackStops)
    {
      ghost var was := View();
      kernel.Close(sock);
      state := Disconnected;
      assert View() == CloseSock(was, sock).(state := Disconnected);
      if !connect {
        return;
      }
      ErrorCallback(callbackStops);
      RunAfter();
    }

    /** The switch on the result of connect(). */
    method Opened(sock: Sock, o: Outcome, callbackStops: bool)
      requires Valid()
      modifies this, client`connect, kernel`closed
      ensures Valid() && View() == ConnectorSpec.Opened(old(View()), sock, o, callbackStops)
    {
      match o
      case InProgress =>
        state := Connecting;
        channel := Some(sock);
      case Retryable =>
        Retry(sock, callbackStops);
      case _ =>
        ghost var was := View();
        kernel.Close(sock);
        assert View() == CloseSock(was, sock);
        ErrorCallback(callbackStops);
    }

    method Connect(o: Outcome, otherStops: bool, callbackStops: bool)
      requires Valid()
      modifies this, client`connect, kernel
      ensures Valid() && View() == ConnectorSpec.Connect(old(View()), o, otherStops, callbackStops)
    {
      if o == NoSocket {
        ErrorCallback(callbackStops);
        return;
      }
      var sock := MakeSocket(otherStops);
      Opened(sock, o, callbackStops);
    }

    /** socket(), and the stop of another thread that may follow it. */
    method MakeSocket(otherStops: bool) returns (sock: Sock)
      requires Valid()
      modifies this, client`connect, kernel
      ensures Valid() && sock == old(kernel.nextSock)
      ensures View() == ConnectorSpec.MakeSocket(old(View()), otherStops)
    {
      sock := kernel.Socket();
      if otherStops {
        Stop(false);
      }
    }

    method StartInLoop(o: Outcome, otherStops: bool, callbackStops: bool)
      requires Valid()
      modifies this, client`connect, kernel
      ensures Valid() && View() == Start(old(View()), o, otherStops, callbackStops)
    {
      if !connect {
        return;
      }
      if state == Disconnected {
        Connect(o, otherStops, callbackStops);
      }
    }

    method TimerFires(o: Outcome, otherStops: bool, callbackStops: bool)
      requires Valid()
      modifies this, client`connect, kernel
      ensures Valid() && View() == ConnectorSpec.TimerFires(old(View()), o, otherStops, callbackStops)
    {
      timer := false;
      StartInLoop(o, otherStops, callbackStops);
    }

    /** The callback of a channel, so channel_ is not null while a connect is under way. */
    method HandleWrite(ok: bool, callbackStops: bool)
      requires Valid() && (state == Connecting ==> channel.Some?)
      modifies this, client, kernel`closed
      ensures Valid() && View() == ConnectorSpec.HandleWrite(old(View()), ok, callbackStops)
    {
      if state != Connecting {
        return;
      }
      var sock := RemoveAndResetChannel();
      if !ok {
        Retry(sock, callbackStops);
        return;
      }
      Succeed(sock);
    }

    /** The rest of HandleWrite, once the socket is known to be connected. */
    method Succeed(sock: Sock)
      requires Valid()
      modifies this, client, kernel`closed
      ensures Valid() && View() ==
        var u := old(View()).(state := Connected, delay := INIT_DELAY, waits := []);
        if u.connect && u.wanted then u.(handed := u.handed + multiset{sock}) else CloseSock(u, sock)
    {
      state := Connected;
      delay := INIT_DELAY;
      waits := [];
      if connect {
        client.NewConnection(sock);
      } else {
        kernel.Close(sock);
      }
    }

    /** One queued functor. */
    method RunFunctor(o: Outcome, otherStops: bool, callbackStops: bool)
      requires Valid() && pending != []
      modifies this, client, kernel
      ensures Valid() && View() == Next(old(View()), Run(o, otherStops, callbackStops))
    {
      var f := pending[0];
      pending := pending[1..];
      match f
      case StartInLoop => StartInLoop(o, otherStops, callbackStops);
      case StopInLoop => StopInLoop();
      case ResetChannel => channel := None;
    }
  }
}
