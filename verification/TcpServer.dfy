/** Connections across the main loop and the sub loops (src/net/TcpServer.cpp and the state_ of TcpConnection.cpp). */
module ServerSpec {
  import opened Prelude
  import T = TcpConnectionSpec

  type Id = nat
  type Loop = nat
  const MAIN: Loop := 0

  // The functors queued on the loops: ConnectionEstablished, the erase of RemoveConnection, ConnectionDestroyed.
  datatype Task = Establish(id: Id) | Erase(id: Id) | Destroy(id: Id)

  // established and destroyed count the calls of ConnectionEstablished and ConnectionDestroyed;
  // removing says that HandleClose ran its close callback, erased that the main loop erased it.
  datatype Conn = Conn(fd: int, loop: Loop, state: T.State, removing: bool, erased: bool,
                       established: nat, destroyed: nat)

  /** table is connections_, open the descriptors in use by the kernel, queues the functor queues of the loops
      (a loop may be the main loop when there are no sub loops). */
  datatype Server = Server(conns: map<Id, Conn>, table: map<int, Id>, open: set<int>, queues: map<Loop, seq<Task>>)

  const START := Server(map[], map[], {}, map[])

  function QueueOf(s: Server, l: Loop): seq<Task> {
    if l in s.queues then s.queues[l] else []
  }

  function QueueInLoop(s: Server, l: Loop, t: Task): Server {
    s.(queues := s.queues[l := QueueOf(s, l) + [t]])
  }

  /** accept4 returns fd, and NewConnection hands it to a loop. */
  function NewConnection(s: Server, id: Id, fd: int, l: Loop): Server {
    QueueInLoop(
      s.(conns := s.conns[id := Conn(fd, l, T.Connecting, false, false, 0, 0)], table := s.table[fd := id],
         open := s.open + {fd}),
      l, Establish(id))
  }

  /** An end-of-stream, error or hang-up event on the connection's own loop: HandleClose, then RemoveConnection. */
  function HandleClose(s: Server, id: Id): Server
    requires id in s.conns
  {
    var c := s.conns[id];
    if c.state == T.Disconnecting || c.state == T.Disconnected then s
    else QueueInLoop(s.(conns := s.conns[id := c.(state := T.Disconnecting, removing := true)]), MAIN, Erase(id))
  }

  function Shutdown(s: Server, id: Id): Server
    requires id in s.conns
  {
    var c := s.conns[id];
    if c.state == T.Connected then s.(conns := s.conns[id := c.(state := T.Disconnecting)]) else s
  }

  function RunTask(s: Server, t: Task): Server
    requires t.id in s.conns
  {
    var c := s.conns[t.id];
    match t
    case Establish(id) =>
      s.(conns := s.conns[id := c.(state := T.Connected, established := c.established + 1)])
    case Erase(id) =>
      QueueInLoop(s.(conns := s.conns[id := c.(erased := true)], table := s.table - {c.fd}), c.loop, Destroy(id))
    case Destroy(id) =>
      s.(conns := s.conns[id := c.(state := T.Disconnected, destroyed := c.destroyed + 1)],
         open := s.open - {c.fd})
  }

  datatype Step =
    | Accept(id: Id, fd: int, loop: Loop)
    | Close(id: Id)
    | LocalShutdown(id: Id)
    | RunHead(loop: Loop)

  // The kernel never hands out a descriptor in use; events come only while the channel is registered.
  predicate Enabled(s: Server, step: Step) {
    match step
    case Accept(id, fd, _) => id !in s.conns && fd !in s.open
    case Close(id) => id in s.conns && s.conns[id].established > 0 && s.conns[id].destroyed == 0
    case LocalShutdown(id) => id in s.conns
    case RunHead(l) => QueueOf(s, l) != [] && QueueOf(s, l)[0].id in s.conns
  }

  function Next(s: Server, step: Step): Server
    requires Enabled(s, step)
  {
    match step
    case Accept(id, fd, l) => NewConnection(s, id, fd, l)
    case Close(id) => HandleClose(s, id)
    case LocalShutdown(id) => Shutdown(s, id)
    case RunHead(l) => RunTask(s.(queues := s.queues[l := QueueOf(s, l)[1..]]), QueueOf(s, l)[0])
  }

  predicate IsRun(s: Server, steps: seq<Step>)
    decreases steps
  {
    steps == [] || (Enabled(s, steps[0]) && IsRun(Next(s, steps[0]), steps[1..]))
  }

  function After(s: Server, steps: seq<Step>): Server
    requires IsRun(s, steps)
    decreases steps
  {
    if steps == [] then s else After(Next(s, steps[0]), steps[1..])
  }
}

module ServerTheorems {
  import opened Prelude
  import T = TcpConnectionSpec
  import opened ServerSpec

  // The life of a connection: accepted, established, leaving (its erase is queued), erased (its destruction
  // is queued), gone.
  datatype Stage = Born | Up | Leaving | Erased | Gone

  function StageOf(c: Conn): Stage {
    if c.destroyed > 0 then Gone
    else if c.erased then Erased
    else if c.removing then Leaving
    else if c.established > 0 then Up
    else Born
  }

  /** How often a task must be in a queue: a connection has at most one task anywhere, the one of its stage. */
  function Expected(s: Server, l: Loop, t: Task): nat {
    if t.id !in s.conns then 0
    else
      var c := s.conns[t.id];
      var due := match t
        case Establish(_) => StageOf(c) == Born && l == c.loop
        case Erase(_) => StageOf(c) == Leaving && l == MAIN
        case Destroy(_) => StageOf(c) == Erased && l == c.loop;
      if due then 1 else 0
  }

  ghost predicate TasksOk(s: Server) {
    forall l: Loop, t: Task :: multiset(QueueOf(s, l))[t] == Expected(s, l, t)
  }

  predicate StateOk(c: Conn) {
    && c.established <= 1 && c.destroyed <= c.established && (c.erased ==> c.removing)
    && match StageOf(c)
       case Born => c.state == T.Connecting && !c.removing && !c.erased
       case Up => c.state == T.Connected || c.state == T.Disconnecting
       case Leaving => c.state == T.Disconnecting && c.established == 1
       case Erased => c.state == T.Disconnecting && c.established == 1
       case Gone => c.state == T.Disconnected && c.erased
  }

  predicate InTable(c: Conn) {
    StageOf(c) == Born || StageOf(c) == Up || StageOf(c) == Leaving
  }

  ghost predicate ConnsOk(s: Server) {
    && (forall id :: id in s.conns ==> StateOk(s.conns[id]))
    && (forall id :: id in s.conns && StageOf(s.conns[id]) != Gone ==> s.conns[id].fd in s.open)
    && (forall a, b :: a in s.conns && b in s.conns && a != b && s.conns[a].fd == s.conns[b].fd ==>
          StageOf(s.conns[a]) == Gone || StageOf(s.conns[b]) == Gone)
  }

  ghost predicate TableOk(s: Server) {
    && (forall id :: id in s.conns && InTable(s.conns[id]) ==>
          s.conns[id].fd in s.table && s.table[s.conns[id].fd] == id)
    && (forall fd :: fd in s.table ==>
          s.table[fd] in s.conns && s.conns[s.table[fd]].fd == fd && InTable(s.conns[s.table[fd]]))
  }

  ghost predicate Inv(s: Server) {
    TasksOk(s) && ConnsOk(s) && TableOk(s)
  }

  lemma HeadIsDue(s: Server, l: Loop)
    requires Inv(s) && QueueOf(s, l) != []
    ensures var t := QueueOf(s, l)[0]; t.id in s.conns && Expected(s, l, t) == 1
  {
    var t := QueueOf(s, l)[0];
    assert t in multiset(QueueOf(s, l));
    assert multiset(QueueOf(s, l))[t] == Expected(s, l, t);
  }

  /** Queueing one task on one loop. */
  lemma QueueCounts(s: Server, l: Loop, t: Task, l': Loop, t': Task)
    ensures multiset(QueueOf(QueueInLoop(s, l, t), l'))[t']
      == multiset(QueueOf(s, l'))[t'] + if l' == l && t' == t then 1 else 0
  {
    assert multiset(QueueOf(s, l) + [t]) == multiset(QueueOf(s, l)) + multiset{t};
  }

  /** Taking the head task off one loop. */
  lemma PopCounts(s: Server, l: Loop, l': Loop, t': Task)
    requires QueueOf(s, l) != []
    ensures var p := s.(queues := s.queues[l := QueueOf(s, l)[1..]]);
      multiset(QueueOf(s, l'))[t']
        == multiset(QueueOf(p, l'))[t'] + if l' == l && t' == QueueOf(s, l)[0] then 1 else 0
  {
    var q := QueueOf(s, l);
    assert q == [q[0]] + q[1..];
    assert multiset(q) == multiset{q[0]} + multiset(q[1..]);
  }

  lemma AcceptKeepsTasks(s: Server, id: Id, fd: int, l: Loop)
    requires TasksOk(s) && Enabled(s, Accept(id, fd, l))
    ensures TasksOk(Next(s, Accept(id, fd, l)))
  {
    var t := Next(s, Accept(id, fd, l));
    var base := s.(conns := t.conns, table := t.table, open := t.open);
    forall l': Loop, k: Task ensures multiset(QueueOf(t, l'))[k] == Expected(t, l', k) {
      QueueCounts(base, l, Establish(id), l', k);
      assert QueueOf(base, l') == QueueOf(s, l');
      assert multiset(QueueOf(s, l'))[k] == Expected(s, l', k);
      AcceptAddsExpected(s, id, fd, l, t, l', k);
    }
  }

  /** A new connection puts its establishment on the expected tasks. */
  lemma AcceptAddsExpected(s: Server, id: Id, fd: int, l: Loop, t: Server, l': Loop, k: Task)
    requires id !in s.conns && t.conns == s.conns[id := Conn(fd, l, T.Connecting, false, false, 0, 0)]
    ensures Expected(t, l', k) == Expected(s, l', k) + if l' == l && k == Establish(id) then 1 else 0
  {
  }

  /** Every key of the table is an open descriptor. */
  lemma TableIsOpen(s: Server)
    requires ConnsOk(s) && TableOk(s)
    ensures forall fd :: fd in s.table ==> fd in s.open
  {
    forall fd | fd in s.table ensures fd in s.open {
      assert s.conns[s.table[fd]].fd == fd && InTable(s.conns[s.table[fd]]);
    }
  }

  /** A new connection never takes the table entry of another one. */
  lemma AcceptKeeps(s: Server, id: Id, fd: int, l: Loop)
    requires Inv(s) && Enabled(s, Accept(id, fd, l))
    ensures Inv(Next(s, Accept(id, fd, l))) && fd !in s.table
  {
    AcceptKeepsTasks(s, id, fd, l);
    TableIsOpen(s);
  }

  lemma CloseKeepsTasks(s: Server, id: Id, l': Loop, k: Task)
    requires Enabled(s, Close(id)) && StateOk(s.conns[id])
    requires multiset(QueueOf(s, l'))[k] == Expected(s, l', k)
    ensures var t := Next(s, Close(id)); multiset(QueueOf(t, l'))[k] == Expected(t, l', k)
  {
    var t := Next(s, Close(id));
    if t != s {
      var base := s.(conns := t.conns);
      QueueCounts(base, MAIN, Erase(id), l', k);
      assert QueueOf(base, l') == QueueOf(s, l');
      CloseMovesExpected(s, id, t, l', k);
    }
  }

  /** A close event that starts the teardown puts the erase on the expected tasks. */
  lemma CloseMovesExpected(s: Server, id: Id, t: Server, l': Loop, k: Task)
    requires id in s.conns && StageOf(s.conns[id]) == Up
    requires t.conns == s.conns[id := s.conns[id].(state := T.Disconnecting, removing := true)]
    ensures Expected(t, l', k) == Expected(s, l', k) + if l' == MAIN && k == Erase(id) then 1 else 0
  {
  }

  lemma CloseKeeps(s: Server, id: Id)
    requires Inv(s) && Enabled(s, Close(id))
    ensures Inv(Next(s, Close(id)))
  {
    forall l': Loop, k: Task
      ensures var t := Next(s, Close(id)); multiset(QueueOf(t, l'))[k] == Expected(t, l', k)
    {
      assert multiset(QueueOf(s, l'))[k] == Expected(s, l', k);
      CloseKeepsTasks(s, id, l', k);
    }
  }

  lemma ShutdownKeeps(s: Server, id: Id)
    requires Inv(s) && Enabled(s, LocalShutdown(id))
    ensures Inv(Next(s, LocalShutdown(id)))
  {
    var t := Next(s, LocalShutdown(id));
    forall l': Loop, k: Task ensures multiset(QueueOf(t, l'))[k] == Expected(t, l', k) {
      assert QueueOf(t, l') == QueueOf(s, l');
      assert multiset(QueueOf(s, l'))[k] == Expected(s, l', k);
    }
  }

  lemma EraseKeepsTasks(s: Server, l: Loop)
    requires Inv(s) && QueueOf(s, l) != [] && QueueOf(s, l)[0].Erase?
    ensures Enabled(s, RunHead(l)) && TasksOk(Next(s, RunHead(l)))
  {
    HeadIsDue(s, l);
    var h := QueueOf(s, l)[0];
    var p := s.(queues := s.queues[l := QueueOf(s, l)[1..]]);
    var t := Next(s, RunHead(l));
    var base := p.(conns := t.conns, table := t.table);
    forall l': Loop, k: Task ensures multiset(QueueOf(t, l'))[k] == Expected(t, l', k) {
      PopCounts(s, l, l', k);
      assert multiset(QueueOf(s, l'))[k] == Expected(s, l', k);
      QueueCounts(base, s.conns[h.id].loop, Destroy(h.id), l', k);
      assert QueueOf(base, l') == QueueOf(p, l');
      EraseMovesExpected(s, l, h.id, t, l', k);
    }
  }

  /** Running an erase takes it off the expected tasks and puts the destruction on. */
  lemma EraseMovesExpected(s: Server, l: Loop, id: Id, t: Server, l': Loop, k: Task)
    requires id in s.conns && StateOk(s.conns[id]) && Expected(s, l, Erase(id)) == 1
    requires t.conns == s.conns[id := s.conns[id].(erased := true)]
    ensures Expected(s, l', k) + (if l' == s.conns[id].loop && k == Destroy(id) then 1 else 0)
         == Expected(t, l', k) + (if l' == l && k == Erase(id) then 1 else 0)
  {
  }

  lemma HeadKeepsTasks(s: Server, l: Loop)
    requires Inv(s) && QueueOf(s, l) != []
    ensures Enabled(s, RunHead(l)) && TasksOk(Next(s, RunHead(l)))
  {
    HeadIsDue(s, l);
    if QueueOf(s, l)[0].Erase? {
      EraseKeepsTasks(s, l);
    } else {
      var p := s.(queues := s.queues[l := QueueOf(s, l)[1..]]);
      var t := Next(s, RunHead(l));
      forall l': Loop, k: Task ensures multiset(QueueOf(t, l'))[k] == Expected(t, l', k) {
        PopCounts(s, l, l', k);
        assert multiset(QueueOf(s, l'))[k] == Expected(s, l', k);
        assert QueueOf(t, l') == QueueOf(p, l');
      }
    }
  }

  /** Connection id goes one stage on: it gives up its table entry when erased and its descriptor when gone. */
  ghost predicate Moved(s: Server, t: Server, id: Id) {
    && id in s.conns && id in t.conns
    && var c, d := s.conns[id], t.conns[id];
    && t.conns == s.conns[id := d] && d.fd == c.fd && StateOk(d) && StageOf(c) != Gone
    && t.open == (if StageOf(d) == Gone then s.open - {c.fd} else s.open)
    && t.table == (if InTable(c) && !InTable(d) then s.table - {c.fd} else s.table)
    && (InTable(d) ==> InTable(c))
  }

  lemma TaskMoves(s: Server, c: Conn, t: Task)
    requires t.id in s.conns && c == s.conns[t.id] && StateOk(c)
    requires match t
      case Establish(_) => StageOf(c) == Born
      case Erase(_) => StageOf(c) == Leaving
      case Destroy(_) => StageOf(c) == Erased
    ensures Moved(s, RunTask(s, t), t.id)
  {
  }

  lemma HeadMoves(s: Server, l: Loop)
    requires Inv(s) && Enabled(s, RunHead(l))
    ensures Moved(s, Next(s, RunHead(l)), QueueOf(s, l)[0].id)
  {
    HeadIsDue(s, l);
    var t := QueueOf(s, l)[0];
    TaskMoves(s.(queues := s.queues[l := QueueOf(s, l)[1..]]), s.conns[t.id], t);
  }

  lemma MovedKeepsConns(s: Server, t: Server, id: Id)
    requires ConnsOk(s) && Moved(s, t, id)
    ensures ConnsOk(t)
  {
  }

  lemma MovedKeepsTable(s: Server, t: Server, id: Id)
    requires TableOk(s) && Moved(s, t, id)
    ensures TableOk(t)
  {
  }

  lemma HeadKeeps(s: Server, l: Loop)
    requires Inv(s) && Enabled(s, RunHead(l))
    ensures Inv(Next(s, RunHead(l)))
  {
    HeadKeepsTasks(s, l);
    HeadMoves(s, l);
    MovedKeepsConns(s, Next(s, RunHead(l)), QueueOf(s, l)[0].id);
    MovedKeepsTable(s, Next(s, RunHead(l)), QueueOf(s, l)[0].id);
  }

  lemma StepKeeps(s: Server, step: Step)
    requires Inv(s) && Enabled(s, step)
    ensures Inv(Next(s, step))
  {
    match step
    case Accept(id, fd, l) => AcceptKeeps(s, id, fd, l);
    case Close(id) => CloseKeeps(s, id);
    case LocalShutdown(id) => ShutdownKeeps(s, id);
    case RunHead(l) => HeadKeeps(s, l);
  }

  lemma {:induction false} RunKeeps(s: Server, steps: seq<Step>)
    requires Inv(s) && IsRun(s, steps)
    ensures Inv(After(s, steps))
    decreases steps
  {
    if steps != [] {
      StepKeeps(s, steps[0]);
      RunKeeps(Next(s, steps[0]), steps[1..]);
    }
  }

  lemma StartHolds()
    ensures Inv(START)
  {
  }

  // ---------- What every run offers ----------

  lemma WithoutKey(table: map<int, Id>, fd: int, id: Id)
    requires forall k :: k in table ==> (table[k] == id <==> k == fd)
    ensures table - {fd} == map k | k in table && table[k] != id :: table[k]
  {
    var rest := map k | k in table && table[k] != id :: table[k];
    forall k | k in table ensures k in rest <==> k in table - {fd} {
      assert table[k] == id <==> k == fd;
    }
    assert (table - {fd}).Keys == rest.Keys;
  }

  lemma EraseHits(s: Server)
    requires Inv(s) && QueueOf(s, MAIN) != [] && QueueOf(s, MAIN)[0].Erase?
    ensures var id := QueueOf(s, MAIN)[0].id;
      && id in s.conns && s.conns[id].fd in s.table && s.table[s.conns[id].fd] == id
      && Next(s, RunHead(MAIN)).table == map fd | fd in s.table && s.table[fd] != id :: s.table[fd]
  {
    HeadIsDue(s, MAIN);
    var id := QueueOf(s, MAIN)[0].id;
    WithoutKey(s.table, s.conns[id].fd, id);
  }

  /** The erase by descriptor removes the connection being torn down, and only it, although
      descriptors are reused. */
  lemma EraseHitsItsOwn(steps: seq<Step>)
    requires IsRun(START, steps)
    requires var s := After(START, steps); QueueOf(s, MAIN) != [] && QueueOf(s, MAIN)[0].Erase?
    ensures var s := After(START, steps);
      var id := QueueOf(s, MAIN)[0].id;
      && id in s.conns && s.conns[id].fd in s.table && s.table[s.conns[id].fd] == id
      && Next(s, RunHead(MAIN)).table == map fd | fd in s.table && s.table[fd] != id :: s.table[fd]
  {
    RunKeeps(START, steps);
    EraseHits(After(START, steps));
  }

  /** While a connection is not destroyed its descriptor is open and no other such connection has it;
      a descriptor being accepted is in no table entry. */
  lemma DescriptorsAreExclusive(steps: seq<Step>, a: Id, b: Id)
    requires IsRun(START, steps)
    requires var s := After(START, steps);
      a in s.conns && b in s.conns && a != b && s.conns[a].destroyed == 0 && s.conns[b].destroyed == 0
    ensures var s := After(START, steps);
      s.conns[a].fd != s.conns[b].fd && s.conns[a].fd in s.open && s.conns[b].fd in s.open
  {
    RunKeeps(START, steps);
  }

  ghost predicate HeldOpen(s: Server, fd: int) {
    exists id :: id in s.conns && s.conns[id].fd == fd && StageOf(s.conns[id]) != Gone
  }

  /** No descriptor leaks. */
  ghost predicate NoLeak(s: Server) {
    forall fd :: fd in s.open ==> HeldOpen(s, fd)
  }

  lemma HeldStays(s: Server, t: Server, id: Id, fd: int)
    requires HeldOpen(s, fd) && id in s.conns && id in t.conns && t.conns == s.conns[id := t.conns[id]]
    requires t.conns[id].fd == s.conns[id].fd && (StageOf(t.conns[id]) == Gone ==> fd != s.conns[id].fd)
    ensures HeldOpen(t, fd)
  {
    var x :| x in s.conns && s.conns[x].fd == fd && StageOf(s.conns[x]) != Gone;
    assert x in t.conns && t.conns[x].fd == fd && StageOf(t.conns[x]) != Gone;
  }

  lemma AcceptLeaksNothing(s: Server, id: Id, fd: int, l: Loop)
    requires NoLeak(s) && Enabled(s, Accept(id, fd, l))
    ensures NoLeak(Next(s, Accept(id, fd, l)))
  {
    var t := Next(s, Accept(id, fd, l));
    assert t.conns[id].fd == fd && StageOf(t.conns[id]) == Born;
    forall x | x in t.open ensures HeldOpen(t, x) {
      if x in s.open {
        var a :| a in s.conns && s.conns[a].fd == x && StageOf(s.conns[a]) != Gone;
        assert t.conns[a] == s.conns[a];
      }
    }
  }

  lemma OneConnLeaksNothing(s: Server, t: Server, id: Id)
    requires NoLeak(s) && id in s.conns && id in t.conns && t.conns == s.conns[id := t.conns[id]]
    requires t.conns[id].fd == s.conns[id].fd
    requires t.open == if StageOf(t.conns[id]) == Gone then s.open - {s.conns[id].fd} else s.open
    ensures NoLeak(t)
  {
    forall fd | fd in t.open ensures HeldOpen(t, fd) { HeldStays(s, t, id, fd); }
  }

  lemma StepLeaksNothing(s: Server, step: Step)
    requires Inv(s) && NoLeak(s) && Enabled(s, step)
    ensures NoLeak(Next(s, step))
  {
    match step
    case Accept(id, fd, l) => AcceptLeaksNothing(s, id, fd, l);
    case Close(id) => OneConnLeaksNothing(s, Next(s, step), id);
    case LocalShutdown(id) => if s.conns[id].destroyed == 0 { OneConnLeaksNothing(s, Next(s, step), id); }
    case RunHead(l) =>
      HeadMoves(s, l);
      OneConnLeaksNothing(s, Next(s, step), QueueOf(s, l)[0].id);
  }

  lemma {:induction false} RunLeaksNothing(s: Server, steps: seq<Step>)
    requires Inv(s) && NoLeak(s) && IsRun(s, steps)
    ensures NoLeak(After(s, steps))
    decreases steps
  {
    if steps != [] {
      StepLeaksNothing(s, steps[0]);
      StepKeeps(s, steps[0]);
      RunLeaksNothing(Next(s, steps[0]), steps[1..]);
    }
  }

  /** A descriptor is open exactly while a connection that is not destroyed has it. */
  lemma OpenIff(steps: seq<Step>, fd: int)
    requires IsRun(START, steps)
    ensures fd in After(START, steps).open <==> HeldOpen(After(START, steps), fd)
  {
    RunKeeps(START, steps);
    RunLeaksNothing(START, steps);
  }

  /** Established at most once, destroyed at most once and only after that, and only once its own loop
      was told so by the erase. */
  lemma LifeIsOneWay(steps: seq<Step>, id: Id)
    requires IsRun(START, steps) && id in After(START, steps).conns
    ensures var c := After(START, steps).conns[id];
      && c.destroyed <= c.established <= 1
      && (c.destroyed == 1 ==> c.erased && c.state == T.Disconnected)
      && (c.erased ==> c.removing)
  {
    RunKeeps(START, steps);
  }

  /** A close event starts the teardown exactly when state_ is Connected: after a local Shutdown,
      HandleClose returns early. */
  lemma CloseTearsDownIff(s: Server, id: Id)
    requires Inv(s) && Enabled(s, Close(id)) && StageOf(s.conns[id]) == Up
    ensures StageOf(Next(s, Close(id)).conns[id]) == Leaving <==> s.conns[id].state == T.Connected
  {
  }

  ghost predicate Stuck(s: Server, id: Id) {
    id in s.conns && StageOf(s.conns[id]) == Up && s.conns[id].state == T.Disconnecting
  }

  lemma StuckStep(s: Server, step: Step, id: Id)
    requires Inv(s) && Stuck(s, id) && Enabled(s, step)
    ensures Stuck(Next(s, step), id)
  {
    if step.RunHead? { HeadIsDue(s, step.loop); }
  }

  /** ... and then nothing ever removes the connection: whatever happens later, it keeps its table entry
      and its open descriptor. */
  lemma {:induction false} ShutdownThenNeverRemoved(s: Server, steps: seq<Step>, id: Id)
    requires Inv(s) && Stuck(s, id) && IsRun(s, steps)
    ensures var t := After(s, steps);
      && Stuck(t, id) && t.conns[id].destroyed == 0
      && t.conns[id].fd in t.open && t.conns[id].fd in t.table && t.table[t.conns[id].fd] == id
    decreases steps
  {
    if steps != [] {
      StuckStep(s, steps[0], id);
      StepKeeps(s, steps[0]);
      ShutdownThenNeverRemoved(Next(s, steps[0]), steps[1..], id);
    }
  }

  /** Accepted, established and shut down locally: from then on a close event changes nothing. */
  lemma StuckIsReached(id: Id, fd: int, l: Loop)
    ensures var steps := [Accept(id, fd, l), RunHead(l), LocalShutdown(id)];
      && IsRun(START, steps) && Stuck(After(START, steps), id)
      && Enabled(After(START, steps), Close(id))
      && Next(After(START, steps), Close(id)) == After(START, steps)
  {
    var a := Next(START, Accept(id, fd, l));
    assert QueueOf(a, l) == [Establish(id)];
    var b := Next(a, RunHead(l));
    var c := Next(b, LocalShutdown(id));
    var steps := [Accept(id, fd, l), RunHead(l), LocalShutdown(id)];
    assert steps[1..] == [RunHead(l), LocalShutdown(id)] && steps[1..][1..] == [LocalShutdown(id)];
    One(b, LocalShutdown(id));
  }

  // ---------- Every other connection can be taken all the way ----------

  lemma {:induction false} Append(s: Server, a: seq<Step>, b: seq<Step>)
    requires IsRun(s, a) && IsRun(After(s, a), b)
    ensures IsRun(s, a + b) && After(s, a + b) == After(After(s, a), b)
    decreases a
  {
    if a == [] {
      assert a + b == b;
    } else {
      assert (a + b)[1..] == a[1..] + b;
      Append(Next(s, a[0]), a[1..], b);
    }
  }

  lemma One(s: Server, step: Step)
    requires Enabled(s, step)
    ensures IsRun(s, [step]) && After(s, [step]) == Next(s, step)
  {
    var one := [step];
    assert one[0] == step && one[1..] == [];
    assert IsRun(Next(s, one[0]), one[1..]);
    assert After(s, one) == After(Next(s, one[0]), one[1..]);
  }

  /** Running a queue reaches any task in it; the stage of that task's connection is untouched until then. */
  lemma {:induction false} QueueReaches(s: Server, l: Loop, k: nat) returns (steps: seq<Step>)
    requires Inv(s) && k < |QueueOf(s, l)|
    ensures IsRun(s, steps)
    ensures var t := After(s, steps); var task := QueueOf(s, l)[k];
      Inv(t) && QueueOf(t, l) != [] && QueueOf(t, l)[0] == task
    decreases k
  {
    if k == 0 {
      steps := [];
    } else {
      HeadIsDue(s, l);
      var step := RunHead(l);
      StepKeeps(s, step);
      var t := Next(s, step);
      assert QueueOf(t, l)[k - 1] == QueueOf(s, l)[1..][k - 1];
      var rest := QueueReaches(t, l, k - 1);
      steps := [step] + rest;
      assert steps[1..] == rest;
    }
  }

  /** A connection whose task is queued moves on to its next stage in some continuation. */
  lemma TaskCanRun(s: Server, l: Loop, task: Task) returns (steps: seq<Step>)
    requires Inv(s) && Expected(s, l, task) == 1
    ensures IsRun(s, steps)
    ensures var t := After(s, steps);
      Inv(t) && task.id in t.conns && match task
        case Establish(id) => StageOf(t.conns[id]) == Up && t.conns[id].state == T.Connected
        case Erase(id) => t.conns[id].erased
        case Destroy(id) => t.conns[id].destroyed == 1
  {
    assert multiset(QueueOf(s, l))[task] == Expected(s, l, task);
    assert task in multiset(QueueOf(s, l));
    var k :| 0 <= k < |QueueOf(s, l)| && QueueOf(s, l)[k] == task;
    steps := QueueReaches(s, l, k);
    var t := After(s, steps);
    HeadIsDue(t, l);
    One(t, RunHead(l));
    StepKeeps(t, RunHead(l));
    Append(s, steps, [RunHead(l)]);
    steps := steps + [RunHead(l)];
  }

  /** Unless it was shut down locally before its close event, every connection can still be destroyed. */
  lemma CanBeDestroyed(s: Server, id: Id) returns (steps: seq<Step>)
    requires Inv(s) && id in s.conns && !Stuck(s, id)
    ensures IsRun(s, steps)
    ensures var t := After(s, steps); id in t.conns && t.conns[id].destroyed == 1
    decreases match StageOf(s.conns[id]) case Born => 4 case Up => 3 case Leaving => 2 case Erased => 1 case Gone => 0
  {
    var c := s.conns[id];
    match StageOf(c)
    case Gone => steps := [];
    case Erased =>
      steps := TaskCanRun(s, c.loop, Destroy(id));
    case Leaving =>
      steps := TaskCanRun(s, MAIN, Erase(id));
      var t := After(s, steps);
      var rest := CanBeDestroyed(t, id);
      Append(s, steps, rest);
      steps := steps + rest;
    case Up =>
      StepKeeps(s, Close(id));
      One(s, Close(id));
      var t := Next(s, Close(id));
      var rest := CanBeDestroyed(t, id);
      Append(s, [Close(id)], rest);
      steps := [Close(id)] + rest;
    case Born =>
      steps := TaskCanRun(s, c.loop, Establish(id));
      var t := After(s, steps);
      var rest := CanBeDestroyed(t, id);
      Append(s, steps, rest);
      steps := steps + rest;
  }
}

/** TcpServer, with the state_ of its connections, as an object. Connections are named by handles. */
module ServerCode {
  import opened Prelude
  import T = TcpConnectionSpec
  import Spec = ServerSpec

  class TcpServer {
    // The connection objects, connections_ and the functor queues of all loops.
    var conns: map<Spec.Id, Spec.Conn>
    var connections: map<int, Spec.Id>
    var queues: map<Spec.Loop, seq<Spec.Task>>
    // The kernel's descriptors.
    ghost var open: set<int>

    ghost function View(): Spec.Server
      reads this
    {
      Spec.Server(conns, connections, open, queues)
    }

    constructor ()
      ensures View() == Spec.START
    {
      conns, connections, queues, open := map[], map[], map[], {};
    }

    method QueueInLoop(l: Spec.Loop, t: Spec.Task)
      modifies this`queues
      ensures View() == Spec.QueueInLoop(old(View()), l, t)
    {
      var q := if l in queues then queues[l] else [];
      queues := queues[l := q + [t]];
    }

    method NewConnection(id: Spec.Id, fd: int, subLoop: Spec.Loop)
      requires Spec.Enabled(View(), Spec.Accept(id, fd, subLoop))
      modifies this
      ensures View() == Spec.Next(old(View()), Spec.Accept(id, fd, subLoop))
    {
      open := open + {fd};
      conns := conns[id := Spec.Conn(fd, subLoop, T.Connecting, false, false, 0, 0)];
      connections := connections[fd := id];
      QueueInLoop(subLoop, Spec.Establish(id));
    }

    method RemoveConnection(id: Spec.Id)
      modifies this`queues
      ensures View() == Spec.QueueInLoop(old(View()), Spec.MAIN, Spec.Erase(id))
    {
      QueueInLoop(Spec.MAIN, Spec.Erase(id));
    }

    method HandleClose(id: Spec.Id)
      requires Spec.Enabled(View(), Spec.Close(id))
      modifies this
      ensures View() == Spec.Next(old(View()), Spec.Close(id))
    {
      var c := conns[id];
      if c.state == T.Disconnecting || c.state == T.Disconnected { return; }
      conns := conns[id := c.(state := T.Disconnecting, removing := true)];
      RemoveConnection(id);
    }

    method Shutdown(id: Spec.Id)
      requires id in conns
      modifies this
      ensures View() == Spec.Next(old(View()), Spec.LocalShutdown(id))
    {
      var c := conns[id];
      if c.state == T.Connected {
        conns := conns[id := c.(state := T.Disconnecting)];
      }
    }

    /** One functor of a loop's DoPendingFunctors. */
    method RunHead(l: Spec.Loop)
      requires Spec.Enabled(View(), Spec.RunHead(l))
      modifies this
      ensures View() == Spec.Next(old(View()), Spec.RunHead(l))
    {
      var task := queues[l][0];
      queues := queues[l := queues[l][1..]];
      var c := conns[task.id];
      match task {
        case Establish(id) =>
          conns := conns[id := c.(state := T.Connected, established := c.established + 1)];
        case Erase(id) =>
          conns := conns[id := c.(erased := true)];
          connections := connections - {c.fd};
          QueueInLoop(c.loop, Spec.Destroy(id));
        case Destroy(id) =>
          conns := conns[id := c.(state := T.Disconnected, destroyed := c.destroyed + 1)];
          open := open - {c.fd};
      }
    }
  }
}
