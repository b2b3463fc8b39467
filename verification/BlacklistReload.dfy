/** Reloads beside adds: the file is read outside the lock, and an add may come before the swap
    (app/repository/BlacklistManager.cpp). */
module BlacklistReload {
  import opened Prelude
  import opened BlacklistSpec
  import opened BlacklistTheorems

  /** writing says that the last add still holds the lock and may not have written all of the file. reading holds what
      each reload in flight has read, used the names of all reloads so far, and overtaken those during which an
      add changed the rules. */
  datatype Shared = Shared(
    m: Manager, writing: bool, reading: map<nat, Data>, used: set<nat>, overtaken: set<nat>)

  function Start(m: Manager): Shared {
    Shared(m, false, map[], {}, {})
  }

  datatype Move =
    | Add(step: Step)                                // under the lock, up to its write of the file
    | Unlock                                         // the write is done
    | ReadFile(reload: nat, seen: Option<string>)    // FetchLatestBlackList, outside the lock
    | Swap(reload: nat)                              // under the lock

  // A reader may meet the file half written, or fail to open it.
  ghost predicate Enabled(s: Shared, move: Move) {
    match move
    case Add(step) => !s.writing && BlacklistSpec.Enabled(s.m, step)
    case Unlock => s.writing
    case ReadFile(r, seen) =>
      r !in s.used && (seen.Some? ==> seen.value == s.m.file || (s.writing && seen.value <= s.m.file))
    case Swap(r) => r in s.reading && !s.writing
  }

  predicate ChangesRules(m: Manager, step: Step) {
    BlacklistSpec.Next(m, step).data != m.data
  }

  function Next(s: Shared, move: Move): Shared
    requires Enabled(s, move)
  {
    match move
    case Add(step) =>
      var t := s.(m := BlacklistSpec.Next(s.m, step));
      if ChangesRules(s.m, step) then t.(writing := step.w.Some?, overtaken := s.overtaken + s.reading.Keys) else t
    case Unlock => s.(writing := false)
    case ReadFile(r, seen) =>
      s.(reading := s.reading[r := if seen.Some? then Fetch(seen.value) else EMPTY], used := s.used + {r})
    case Swap(r) => s.(m := s.m.(data := s.reading[r]), reading := s.reading - {r})
  }

  ghost predicate IsRun(s: Shared, moves: seq<Move>)
    decreases moves
  {
    moves == [] || (Enabled(s, moves[0]) && IsRun(Next(s, moves[0]), moves[1..]))
  }

  ghost function After(s: Shared, moves: seq<Move>): Shared
    requires IsRun(s, moves)
    decreases moves
  {
    if moves == [] then s else After(Next(s, moves[0]), moves[1..])
  }

  // ---------- What a swap does ----------

  /** Whatever a reload has read, also from a file half written or not to be opened: its swap leaves the manager in
      step with the file exactly when it read the rules that are in memory. */
  lemma SwapInStepIff(s: Shared, r: nat)
    requires Synced(s.m) && Enabled(s, Swap(r))
    ensures Synced(Next(s, Swap(r)).m) <==> s.reading[r] == s.m.data
  {
  }

  // ---------- Runs in which only the order matters ----------

  /** Adds of well-formed entries that manage to write the file, and reads of the whole file. */
  ghost predicate GoodMove(s: Shared, move: Move) {
    match move
    case Add(step) => Good(s.m, step)
    case ReadFile(_, seen) => seen == Some(s.m.file)
    case _ => true
  }

  ghost predicate GoodRun(s: Shared, moves: seq<Move>)
    requires IsRun(s, moves)
    decreases moves
  {
    moves == [] || (GoodMove(s, moves[0]) && GoodRun(Next(s, moves[0]), moves[1..]))
  }

  predicate SwapsOvertaken(s: Shared, move: Move) {
    move.Swap? && move.reload in s.overtaken
  }

  /** Some reload of the run swaps although an add changed the rules after its reading. */
  ghost predicate OvertakenSwap(s: Shared, moves: seq<Move>)
    requires IsRun(s, moves)
    decreases moves
  {
    moves != [] && (SwapsOvertaken(s, moves[0]) || OvertakenSwap(Next(s, moves[0]), moves[1..]))
  }

  /** In every state of the run the rules in memory are those of the file. */
  ghost predicate AlwaysInStep(s: Shared, moves: seq<Move>)
    requires IsRun(s, moves)
    decreases moves
  {
    Synced(s.m) && (moves != [] ==> AlwaysInStep(Next(s, moves[0]), moves[1..]))
  }

  /** Rules that were added to: every old rule is there, and some new one. */
  predicate Grown(a: Data, b: Data) {
    a.nicks <= b.nicks && a.ips <= b.ips && a.keywords <= b.keywords && a != b
  }

  ghost predicate Inv(s: Shared) {
    && Synced(s.m)
    && s.reading.Keys <= s.used && s.overtaken <= s.used
    && (forall r :: r in s.reading && r !in s.overtaken ==> s.reading[r] == s.m.data)
    && (forall r :: r in s.reading && r in s.overtaken ==> Grown(s.reading[r], s.m.data))
  }

  lemma AddGrows(m: Manager, step: Step)
    requires ChangesRules(m, step)
    ensures Grown(m.data, BlacklistSpec.Next(m, step).data)
  {
  }

  lemma GrownFurther(a: Data, b: Data, c: Data)
    requires (a == b || Grown(a, b)) && Grown(b, c)
    ensures Grown(a, c)
  {
  }

  lemma AddKeeps(s: Shared, step: Step)
    requires Inv(s) && Enabled(s, Add(step)) && Good(s.m, step)
    ensures Inv(Next(s, Add(step)))
  {
    StepStaysSynced(s.m, step);
    var t := Next(s, Add(step));
    if ChangesRules(s.m, step) {
      AddGrows(s.m, step);
      forall r | r in t.reading ensures Grown(t.reading[r], t.m.data) {
        GrownFurther(s.reading[r], s.m.data, t.m.data);
      }
    }
  }

  lemma MoveKeeps(s: Shared, move: Move)
    requires Inv(s) && Enabled(s, move) && GoodMove(s, move) && !SwapsOvertaken(s, move)
    ensures Inv(Next(s, move))
  {
    if move.Add? { AddKeeps(s, move.step); }
  }

  lemma OvertakenSwapBreaks(s: Shared, r: nat)
    requires Inv(s) && Enabled(s, Swap(r)) && r in s.overtaken
    ensures !Synced(Next(s, Swap(r)).m)
  {
    SwapInStepIff(s, r);
  }

  lemma {:induction false} RunInStepIff(s: Shared, moves: seq<Move>)
    requires Inv(s) && IsRun(s, moves) && GoodRun(s, moves)
    ensures AlwaysInStep(s, moves) <==> !OvertakenSwap(s, moves)
    ensures !OvertakenSwap(s, moves) ==> Inv(After(s, moves))
    decreases moves
  {
    if moves != [] {
      var t := Next(s, moves[0]);
      if SwapsOvertaken(s, moves[0]) {
        OvertakenSwapBreaks(s, moves[0].reload);
      } else {
        MoveKeeps(s, moves[0]);
        RunInStepIff(t, moves[1..]);
      }
    }
  }

  // ---------- Main results ----------

  /** Over any run of adds and of any number of reloads at once, the rules in memory stay those of the file exactly
      when no add changes the rules between the reading of a reload and its swap. */
  lemma InStepIff(m: Manager, moves: seq<Move>)
    requires Synced(m) && IsRun(Start(m), moves) && GoodRun(Start(m), moves)
    ensures AlwaysInStep(Start(m), moves) <==> !OvertakenSwap(Start(m), moves)
  {
    RunInStepIff(Start(m), moves);
  }

  /** And then a further reload, or the swap of any reload in flight that is not overtaken, changes no verdict. */
  lemma ReloadChangesNoVerdict(m: Manager, moves: seq<Move>, nick: string, ip: string, content: string)
    requires Synced(m) && IsRun(Start(m), moves) && GoodRun(Start(m), moves) && !OvertakenSwap(Start(m), moves)
    ensures var s := After(Start(m), moves);
      && Check(Reload(s.m).data, nick, ip, content) == Check(s.m.data, nick, ip, content)
      && forall r :: r in s.reading && r !in s.overtaken ==>
           Check(s.reading[r], nick, ip, content) == Check(s.m.data, nick, ip, content)
  {
    RunInStepIff(Start(m), moves);
  }

  // ---------- Runs that lose a rule ----------

  lemma {:induction false} SomeOrder(s: set<string>) returns (order: seq<string>)
    ensures Orders(order, s)
    decreases s
  {
    order := [];
    if s != {} {
      var e :| e in s;
      order := SomeOrder(s - {e});
      order := order + [e];
    }
  }

  lemma SomeWriting(data: Data) returns (w: Writing)
    ensures w.Some? && Possible(data, w)
  {
    var nicks := SomeOrder(data.nicks);
    var ips := SomeOrder(data.ips);
    w := Some((nicks, ips));
  }

  /** The rules with one more nickname. */
  function WithNick(data: Data, nick: string): Data {
    data.(nicks := data.nicks + {nick})
  }

  lemma AddOneNick(m: Manager, nick: string, w: Writing)
    requires Well(m.data) && WellFormed(nick) && nick !in m.data.nicks
    requires w.Some? && Possible(WithNick(m.data, nick), w)
    ensures var n := BlacklistSpec.Next(m, Batch([nick], [], w));
      && BlacklistSpec.Enabled(m, Batch([nick], [], w)) && Good(m, Batch([nick], [], w))
      && ChangesRules(m, Batch([nick], [], w))
      && n.data == WithNick(m.data, nick) && Fetch(n.file) == n.data && Well(n.data)
  {
    assert NonEmpty([nick]) == {nick} && NonEmpty([]) == {};
    assert Added(m.data, [nick], []) == WithNick(m.data, nick);
    assert nick in WithNick(m.data, nick).nicks;
    FetchPersisted(WithNick(m.data, nick), w.value.0, w.value.1);
  }

  lemma Cons(s: Shared, move: Move, rest: seq<Move>)
    requires Enabled(s, move) && IsRun(Next(s, move), rest)
    ensures IsRun(s, [move] + rest) && After(s, [move] + rest) == After(Next(s, move), rest)
    ensures GoodMove(s, move) && GoodRun(Next(s, move), rest) ==> GoodRun(s, [move] + rest)
  {
    ConsTail(move, rest);
  }

  /** One move with the state it leads to, when it is a good one. */
  ghost predicate Leads(s: Shared, move: Move, t: Shared) {
    Enabled(s, move) && Next(s, move) == t
  }

  lemma TwoMoves(s: Shared, a: Move, t: Shared, b: Move, u: Shared, rest: seq<Move>)
    requires Leads(s, a, t) && Leads(t, b, u) && IsRun(u, rest)
    ensures IsRun(s, [a, b] + rest) && After(s, [a, b] + rest) == After(u, rest)
    ensures GoodMove(s, a) && GoodMove(t, b) && GoodRun(u, rest) ==> GoodRun(s, [a, b] + rest)
  {
    Cons(t, b, rest);
    Cons(s, a, [b] + rest);
    assert [a] + ([b] + rest) == [a, b] + rest;
  }

  function FirstHalf(file: string, nick: string, w: Writing): seq<Move> {
    [ReadFile(0, Some(file)), Add(Batch([nick], [], w))]
  }

  /** After the reading and the first add. */
  lemma ReadThenAdd(m: Manager, nick: string, w: Writing) returns (a: Shared, b: Shared)
    requires Synced(m) && WellFormed(nick) && nick !in m.data.nicks
    requires w.Some? && Possible(WithNick(m.data, nick), w)
    ensures Leads(Start(m), ReadFile(0, Some(m.file)), a) && Leads(a, Add(Batch([nick], [], w)), b)
    ensures GoodMove(Start(m), ReadFile(0, Some(m.file))) && GoodMove(a, Add(Batch([nick], [], w)))
    ensures b.writing && b.reading == map[0 := m.data] && b.overtaken == {0} && b.used == {0}
  {
    AddOneNick(m, nick, w);
    a := Next(Start(m), ReadFile(0, Some(m.file)));
    b := Next(a, Add(Batch([nick], [], w)));
  }

  /** The lock is released and the overtaken reload swaps. */
  lemma UnlockThenSwap(b: Shared, data: Data) returns (c: Shared, d: Shared)
    requires b.writing && b.reading == map[0 := data]
    ensures Leads(b, Unlock, c) && Leads(c, Swap(0), d)
    ensures !d.writing && d.reading == map[] && d.m.data == data && d.m.file == b.m.file
  {
    c := Next(b, Unlock);
    d := Next(c, Swap(0));
    assert d.reading == map[];
  }

  /** Another nickname is added and written. */
  lemma AddThenUnlock(d: Shared, other: string, v: Writing) returns (e: Shared, f: Shared)
    requires !d.writing && d.reading == map[] && Well(d.m.data) && WellFormed(other) && other !in d.m.data.nicks
    requires v.Some? && Possible(WithNick(d.m.data, other), v)
    ensures Leads(d, Add(Batch([other], [], v)), e) && Leads(e, Unlock, f) && GoodMove(d, Add(Batch([other], [], v)))
    ensures !f.writing && f.reading == map[] && Synced(f.m) && f.m.data == WithNick(d.m.data, other)
  {
    AddOneNick(d.m, other, v);
    e := Next(d, Add(Batch([other], [], v)));
    f := Next(e, Unlock);
  }

  /** The moves by which a nickname gets lost. */
  function LosingMoves(file: string, nick: string, w: Writing, other: string, v: Writing): seq<Move> {
    [ReadFile(0, Some(file)), Add(Batch([nick], [], w))] +
    ([Unlock, Swap(0)] + ([Add(Batch([other], [], v)), Unlock] + []))
  }

  /** A reload reads the file, a nickname is added, the reload swaps, and another nickname is added: the first one is
      gone from memory and from the file, although every entry is well formed and every write succeeds. */
  lemma RuleIsLost(m: Manager, nick: string, other: string) returns (w: Writing, v: Writing)
    requires Synced(m) && WellFormed(nick) && WellFormed(other) && nick != other
    requires nick !in m.data.nicks && other !in m.data.nicks
    ensures var moves := LosingMoves(m.file, nick, w, other, v);
      && IsRun(Start(m), moves) && GoodRun(Start(m), moves)
      && var s := After(Start(m), moves);
         && s.reading == map[] && !s.writing && Synced(s.m)
         && s.m.data == WithNick(m.data, other) && nick !in Reload(s.m).data.nicks
  {
    w := SomeWriting(WithNick(m.data, nick));
    v := SomeWriting(WithNick(m.data, other));
    var a, b := ReadThenAdd(m, nick, w);
    var c, d := UnlockThenSwap(b, m.data);
    var e, f := AddThenUnlock(d, other, v);
    var last := [Add(Batch([other], [], v)), Unlock];
    TwoMoves(d, last[0], e, last[1], f, []);
    TwoMoves(b, Unlock, c, Swap(0), d, last + []);
    TwoMoves(Start(m), ReadFile(0, Some(m.file)), a, Add(Batch([nick], [], w)), b, [Unlock, Swap(0)] + (last + []));
  }

  lemma NothingIsEmpty()
    ensures Fetch("") == EMPTY
  {
  }

  function TornMoves(nick: string, w: Writing): seq<Move> {
    [Add(Batch([nick], [], w)), ReadFile(0, Some(""))] + ([Unlock, Swap(0)] + [])
  }

  /** A reload that reads the file just after an add has emptied it for writing: memory loses every rule, although
      the file soon holds them all. */
  lemma TornReadEmptiesMemory(m: Manager, nick: string) returns (w: Writing)
    requires Synced(m) && WellFormed(nick) && nick !in m.data.nicks
    ensures var moves := TornMoves(nick, w);
      && IsRun(Start(m), moves)
      && var s := After(Start(m), moves);
         s.m.data == EMPTY && nick in Fetch(s.m.file).nicks && s.reading == map[] && !s.writing
  {
    w := SomeWriting(WithNick(m.data, nick));
    var a, b := AddThenTornRead(m, nick, w);
    var c, d := UnlockThenSwap(b, EMPTY);
    TwoMoves(b, Unlock, c, Swap(0), d, []);
    TwoMoves(Start(m), Add(Batch([nick], [], w)), a, ReadFile(0, Some("")), b, [Unlock, Swap(0)] + []);
  }

  lemma AddThenTornRead(m: Manager, nick: string, w: Writing) returns (a: Shared, b: Shared)
    requires Synced(m) && WellFormed(nick) && nick !in m.data.nicks
    requires w.Some? && Possible(WithNick(m.data, nick), w)
    ensures Leads(Start(m), Add(Batch([nick], [], w)), a) && Leads(a, ReadFile(0, Some("")), b)
    ensures b.writing && b.reading == map[0 := EMPTY] && nick in Fetch(b.m.file).nicks
  {
    AddOneNick(m, nick, w);
    NothingIsEmpty();
    a := Next(Start(m), Add(Batch([nick], [], w)));
    assert "" <= a.m.file;
    b := Next(a, ReadFile(0, Some("")));
    assert nick in WithNick(m.data, nick).nicks;
  }
}
