/** The double-buffered asynchronous logger (src/log/AsyncLogging.cpp). A LogBuffer appears as its bytes;
    a null unique_ptr is None. */
module LoggerSpec {
  import opened Prelude

  // kLargeBuffer
  const CAPACITY: nat := 4000 * 1000

  /** LogBuffer::Append drops what does not fit with a byte to spare. */
  function Put(buffer: Bytes, line: Bytes): Bytes {
    if CAPACITY - |buffer| > |line| then buffer + line else buffer
  }

  // Where the backend thread stands: at the loop test, about to lock, writing a batch, about to recycle,
  // about to sweep up, writing the last batch, done.
  datatype Pc = Test | Lock | Write | Recycle | Sweep | LastWrite | Closed

  /** toWrite is buffersToWrite, of which `written` buffers are already in the file. offered is every line
      given to Append, accepted those that LogBuffer::Append took, both in lock order. */
  datatype Logger = Logger(
    current: Option<Bytes>, next: Option<Bytes>, buffers: seq<Bytes>,
    buffer1: Option<Bytes>, buffer2: Option<Bytes>, toWrite: seq<Bytes>, written: nat,
    pc: Pc, running: bool, file: Bytes, offered: seq<Bytes>, accepted: Bytes)

  const START := Logger(Some(""), Some(""), [], Some(""), Some(""), [], 0, Test, true, "", [], "")

  function Append(s: Logger, line: Bytes): Logger
    requires s.current.Some?
  {
    var t := s.(offered := s.offered + [line],
                accepted := if |line| < CAPACITY then s.accepted + line else s.accepted);
    if CAPACITY - |s.current.value| > |line| then t.(current := Some(Put(s.current.value, line)))
    else
      var fresh_ := if s.next.Some? then s.next.value else "";
      t.(buffers := s.buffers + [s.current.value], next := None, current := Some(Put(fresh_, line)))
  }

  /** The locked section of ThreadFunc. */
  function SwapIn(s: Logger): Logger
    requires s.current.Some?
  {
    s.(current := s.buffer1, buffer1 := None,
       toWrite := s.buffers + [s.current.value], buffers := s.toWrite, written := 0,
       next := if s.next.None? then s.buffer2 else s.next,
       buffer2 := if s.next.None? then None else s.buffer2,
       pc := Write)
  }

  function WriteOne(s: Logger): Logger
    requires s.written < |s.toWrite|
  {
    s.(file := s.file + s.toWrite[s.written], written := s.written + 1)
  }

  /** What resize(2) leaves for recycling. */
  function Kept(toWrite: seq<Bytes>): seq<Bytes> {
    if |toWrite| > 2 then toWrite[..2] else toWrite
  }

  // How many buffers pop_back takes away again.
  function Needed(s: Logger): nat {
    (if s.buffer1.None? then 1 else 0) + if s.buffer2.None? then 1 else 0
  }

  function RecycleBuffers(s: Logger): Logger
    requires Needed(s) <= |Kept(s.toWrite)|
  {
    s.(buffer1 := Some(if s.buffer1.None? then "" else s.buffer1.value),
       buffer2 := Some(if s.buffer2.None? then "" else s.buffer2.value),
       toWrite := [], written := 0, pc := Test)
  }

  function SweepUp(s: Logger): Logger
    requires s.current.Some?
  {
    s.(toWrite := s.buffers + [s.current.value], buffers := s.toWrite, current := None, written := 0, pc := LastWrite)
  }

  datatype Step =
    | AppendLine(line: Bytes)  // a producer, under the lock
    | StopFlag                 // Stop sets running_
    | TestRunning
    | SwapStep
    | WriteStep
    | WriteEnd
    | RecycleStep
    | SweepStep
    | Close

  predicate AfterSweep(s: Logger) {
    s.pc == LastWrite || s.pc == Closed
  }

  // No guard speaks of null pointers or of empty vectors: that those never matter is a theorem.
  predicate Enabled(s: Logger, step: Step) {
    match step
    case AppendLine(_) => !AfterSweep(s)
    case StopFlag => true
    case TestRunning => s.pc == Test
    case SwapStep => s.pc == Lock
    case WriteStep => (s.pc == Write || s.pc == LastWrite) && s.written < |s.toWrite|
    case WriteEnd => s.pc == Write && s.written >= |s.toWrite|
    case RecycleStep => s.pc == Recycle
    case SweepStep => s.pc == Sweep
    case Close => s.pc == LastWrite && s.written >= |s.toWrite|
  }

  /** The step dereferences no null pointer and pops no empty vector. */
  predicate Safe(s: Logger, step: Step) {
    match step
    case AppendLine(_) => s.current.Some?
    case SwapStep => s.current.Some?
    case RecycleStep => Needed(s) <= |Kept(s.toWrite)|
    case SweepStep => s.current.Some?
    case _ => true
  }

  function Next(s: Logger, step: Step): Logger
    requires Enabled(s, step) && Safe(s, step)
  {
    match step
    case AppendLine(line) => Append(s, line)
    case StopFlag => s.(running := false)
    case TestRunning => s.(pc := if s.running then Lock else Sweep)
    case SwapStep => SwapIn(s)
    case WriteStep => WriteOne(s)
    case WriteEnd => s.(pc := Recycle)
    case RecycleStep => RecycleBuffers(s)
    case SweepStep => SweepUp(s)
    case Close => s.(pc := Closed)
  }

  /** Every step of the run is enabled when it is taken, and safe. */
  ghost predicate IsRun(s: Logger, steps: seq<Step>)
    decreases steps
  {
    steps == [] || (Enabled(s, steps[0]) && Safe(s, steps[0]) && IsRun(Next(s, steps[0]), steps[1..]))
  }

  ghost function After(s: Logger, steps: seq<Step>): Logger
    requires IsRun(s, steps)
    decreases steps
  {
    if steps == [] then s else After(Next(s, steps[0]), steps[1..])
  }

  // ---------- The invariant ----------

  function Unwritten(s: Logger): Bytes
    requires s.written <= |s.toWrite|
  {
    Concat(s.toWrite[s.written..])
  }

  function CurrentBytes(s: Logger): Bytes {
    if s.current.Some? then s.current.value else ""
  }

  /** Where the accepted bytes are. */
  ghost predicate Conserved(s: Logger) {
    && s.written <= |s.toWrite|
    && s.accepted == s.file + Unwritten(s) + Concat(s.buffers) + CurrentBytes(s)
  }

  predicate Empty(b: Option<Bytes>) {
    b.Some? ==> b.value == ""
  }

  /** Which pointers are null when. */
  predicate Pointers(s: Logger) {
    && (s.current.Some? <==> !AfterSweep(s))
    && Empty(s.next) && Empty(s.buffer1) && Empty(s.buffer2)
    && (s.next.None? && !AfterSweep(s) ==> s.buffers != [])
    && match s.pc
       case Write => s.buffer1.None? && s.toWrite != [] && (s.buffer2.None? ==> |s.toWrite| >= 2)
       case Recycle =>
         s.buffer1.None? && s.toWrite != [] && (s.buffer2.None? ==> |s.toWrite| >= 2) && s.written == |s.toWrite|
       case LastWrite => s.buffers == []
       case Closed => s.buffers == [] && s.written == |s.toWrite|
       case _ => s.buffer1.Some? && s.buffer2.Some? && s.toWrite == []
  }

  ghost predicate Inv(s: Logger) {
    Conserved(s) && Pointers(s)
  }

  /** No step that the code can take next is unsafe. */
  lemma StepSafe(s: Logger, step: Step)
    requires Inv(s) && Enabled(s, step)
    ensures Safe(s, step)
  {
  }

  lemma AppendConserves(s: Logger, line: Bytes)
    requires Inv(s) && Enabled(s, AppendLine(line))
    ensures Conserved(Append(s, line))
  {
    var t := Append(s, line);
    var before := s.file + Unwritten(s);
    if CAPACITY - |s.current.value| > |line| {
      Associate(before + Concat(s.buffers), s.current.value, line);
    } else {
      ConcatSnoc(s.buffers, s.current.value);
      Associate(before, Concat(s.buffers), s.current.value);
      assert t.current.value == if |line| < CAPACITY then line else "";
      assert before + Concat(t.buffers) + "" == before + Concat(t.buffers);
    }
  }

  lemma SwapConserves(s: Logger, t: Logger)
    requires Inv(s) && s.toWrite == [] && s.current.Some?
    requires t.toWrite == s.buffers + [s.current.value] && t.buffers == [] && t.written == 0
    requires CurrentBytes(t) == "" && t.file == s.file && t.accepted == s.accepted
    ensures Conserved(t)
  {
    ConcatSnoc(s.buffers, s.current.value);
    assert t.toWrite[0..] == t.toWrite;
    assert s.file + "" + Concat(s.buffers) + s.current.value == s.file + (Concat(s.buffers) + s.current.value) + "" + "";
  }

  lemma WriteConserves(s: Logger)
    requires Inv(s) && s.written < |s.toWrite|
    ensures Conserved(WriteOne(s))
  {
    var t := WriteOne(s);
    assert s.toWrite[s.written..] == [s.toWrite[s.written]] + s.toWrite[s.written + 1..];
    assert s.file + (s.toWrite[s.written] + Unwritten(t)) == t.file + Unwritten(t);
  }

  lemma StepKeeps(s: Logger, step: Step)
    requires Inv(s) && Enabled(s, step)
    ensures Safe(s, step) && Inv(Next(s, step))
  {
    StepSafe(s, step);
    StepKeepsPointers(s, step);
    var t := Next(s, step);
    match step
    case AppendLine(line) => AppendConserves(s, line);
    case SwapStep => SwapConserves(s, t);
    case WriteStep => WriteConserves(s);
    case RecycleStep => assert s.toWrite[s.written..] == [] && t.toWrite[0..] == [];
    case SweepStep => SwapConserves(s, t);
    case _ =>
  }

  lemma StepKeepsPointers(s: Logger, step: Step)
    requires Pointers(s) && s.written <= |s.toWrite| && Enabled(s, step) && Safe(s, step)
    ensures Pointers(Next(s, step))
  {
  }

  lemma {:induction false} RunKeeps(s: Logger, steps: seq<Step>)
    requires Inv(s) && IsRun(s, steps)
    ensures Inv(After(s, steps))
    decreases steps
  {
    if steps != [] {
      StepKeeps(s, steps[0]);
      RunKeeps(Next(s, steps[0]), steps[1..]);
    }
  }

  lemma StartHolds()
    ensures Inv(START)
  {
    assert START.toWrite[0..] == [];
  }

  /** Log conservation, for any interleaving of producers and backend: the file, the buffers being written,
      the full buffers and the current buffer hold the accepted lines, in lock order. */
  lemma LinesConserved(steps: seq<Step>)
    requires IsRun(START, steps)
    ensures var s := After(START, steps);
      && s.written <= |s.toWrite|
      && s.accepted == s.file + Unwritten(s) + Concat(s.buffers) + CurrentBytes(s)
      && (s.pc == Closed ==> s.file == s.accepted)
  {
    StartHolds();
    RunKeeps(START, steps);
    var s := After(START, steps);
    if s.pc == Closed {
      assert s.toWrite[s.written..] == [];
      assert s.file + "" + "" + "" == s.file;
    }
  }

  /** The current buffer is there exactly until the final sweep, and pop_back never meets an empty vector:
      whatever the code does next is safe. */
  lemma NeverNull(steps: seq<Step>, step: Step)
    requires IsRun(START, steps) && Enabled(After(START, steps), step)
    ensures var s := After(START, steps);
      && (s.current.Some? <==> !AfterSweep(s))
      && (s.next.None? && !AfterSweep(s) ==> s.buffers != [])
      && Safe(s, step)
  {
    StartHolds();
    RunKeeps(START, steps);
    StepSafe(After(START, steps), step);
  }

  // ---------- Which lines are lost ----------

  function Accepted(lines: seq<Bytes>): Bytes {
    if lines == [] then ""
    else
      var last := lines[|lines| - 1];
      Accepted(lines[..|lines| - 1]) + if |last| < CAPACITY then last else ""
  }

  lemma {:induction false} AcceptedShorter(lines: seq<Bytes>)
    ensures |Accepted(lines)| <= |Concat(lines)|
    ensures Accepted(lines) == Concat(lines) <==> forall i :: 0 <= i < |lines| ==> |lines[i]| < CAPACITY
  {
    if lines != [] {
      var n := |lines| - 1;
      AcceptedShorter(lines[..n]);
      ConcatSnoc(lines[..n], lines[n]);
      assert lines == lines[..n] + [lines[n]];
      if |lines[n]| < CAPACITY && Accepted(lines) == Concat(lines) {
        assert Accepted(lines)[..|Accepted(lines[..n])|] == Accepted(lines[..n]);
        assert |Accepted(lines[..n])| == |Concat(lines[..n])|;
      }
    }
  }

  lemma {:induction false} AcceptedTracksOffered(s: Logger, steps: seq<Step>)
    requires IsRun(s, steps) && s.accepted == Accepted(s.offered)
    ensures After(s, steps).accepted == Accepted(After(s, steps).offered)
    decreases steps
  {
    if steps != [] {
      if steps[0].AppendLine? {
        var t := Next(s, steps[0]);
        assert t.offered[..|t.offered| - 1] == s.offered;
      }
      AcceptedTracksOffered(Next(s, steps[0]), steps[1..]);
    }
  }

  /** The lines given to Append, in the order in which it took the lock. */
  function Lines(steps: seq<Step>): seq<Bytes> {
    if steps == [] then [] else (if steps[0].AppendLine? then [steps[0].line] else []) + Lines(steps[1..])
  }

  lemma {:induction false} OfferedIsLines(s: Logger, steps: seq<Step>)
    requires IsRun(s, steps)
    ensures After(s, steps).offered == s.offered + Lines(steps)
    decreases steps
  {
    if steps == [] {
      assert s.offered + [] == s.offered;
    } else {
      OfferedIsLines(Next(s, steps[0]), steps[1..]);
      Associate(s.offered, if steps[0].AppendLine? then [steps[0].line] else [], Lines(steps[1..]));
      assert s.offered + [] == s.offered;
    }
  }

  /** After Stop the file is every line that was ever given to Append, in order, exactly when each of them was
      shorter than a large buffer. */
  lemma FileIsEveryLineIff(steps: seq<Step>)
    requires IsRun(START, steps) && After(START, steps).pc == Closed
    ensures var lines := Lines(steps);
      After(START, steps).file == Concat(lines) <==> forall i :: 0 <= i < |lines| ==> |lines[i]| < CAPACITY
  {
    LinesConserved(steps);
    AcceptedTracksOffered(START, steps);
    AcceptedShorter(After(START, steps).offered);
    OfferedIsLines(START, steps);
    assert [] + Lines(steps) == Lines(steps);
  }

  // ---------- Room in the buffers ----------

  /** A buffer that is not null and not full to the last byte. */
  predicate Roomy(b: Option<Bytes>) {
    b.Some? ==> |b.value| < CAPACITY
  }

  ghost predicate AllRoomy(s: Logger) {
    && Roomy(s.current) && (forall b :: b in s.buffers ==> |b| < CAPACITY)
    && (forall b :: b in s.toWrite ==> |b| < CAPACITY)
  }

  lemma AppendKeepsRoom(s: Logger, line: Bytes)
    requires Pointers(s) && AllRoomy(s) && s.current.Some?
    ensures AllRoomy(Append(s, line))
  {
  }

  lemma StepKeepsRoom(s: Logger, step: Step)
    requires Pointers(s) && AllRoomy(s) && Enabled(s, step) && Safe(s, step)
    ensures AllRoomy(Next(s, step))
  {
    if step.AppendLine? { AppendKeepsRoom(s, step.line); }
  }

  /** No buffer ever outgrows its storage: one byte always stays free. */
  lemma {:induction false} BuffersFit(s: Logger, steps: seq<Step>)
    requires Inv(s) && AllRoomy(s) && IsRun(s, steps)
    ensures AllRoomy(After(s, steps))
    decreases steps
  {
    if steps != [] {
      StepKeepsRoom(s, steps[0]);
      StepKeeps(s, steps[0]);
      BuffersFit(Next(s, steps[0]), steps[1..]);
    }
  }

  // ---------- Buffers in circulation ----------

  function One(b: Option<Bytes>): nat {
    if b.Some? then 1 else 0
  }

  function Total(s: Logger): nat {
    One(s.current) + One(s.next) + |s.buffers| + One(s.buffer1) + One(s.buffer2) + |s.toWrite|
  }

  /** A line that does not fit finds no spare buffer: the only time a buffer is allocated. */
  predicate Allocates(s: Logger, step: Step) {
    step.AppendLine? && s.current.Some? && CAPACITY - |s.current.value| <= |step.line| && s.next.None?
  }

  /** No buffer is used twice or lost: allocations aside their number changes only when a batch has been written, of
      which as many are kept as the backend has given away. */
  lemma BuffersAreConserved(s: Logger, step: Step)
    requires Enabled(s, step) && Safe(s, step)
    ensures Total(Next(s, step)) == Total(s) + (if Allocates(s, step) then 1 else 0)
                                    - (if step.RecycleStep? then |s.toWrite| - Needed(s) else 0)
  {
  }

  // ---------- The backend stops when it is told to, and only then ----------

  /** The final sweep, once begun, was asked for. */
  predicate SweepsWhenStopped(s: Logger) {
    s.pc == Sweep || AfterSweep(s) ==> !s.running
  }

  lemma {:induction false} SweepOnlyAfterStop(s: Logger, steps: seq<Step>)
    requires SweepsWhenStopped(s) && IsRun(s, steps)
    ensures SweepsWhenStopped(After(s, steps))
    ensures After(s, steps).running <==> s.running && StopFlag !in steps
    decreases steps
  {
    if steps != [] {
      assert steps == [steps[0]] + steps[1..];
      SweepOnlyAfterStop(Next(s, steps[0]), steps[1..]);
    }
  }

  /** How many steps of the backend are still to come once running_ is off and nothing is appended any more. */
  function Remaining(s: Logger): int {
    match s.pc
    case Closed => 0
    case LastWrite => |s.toWrite| - s.written + 1
    case Sweep => |s.buffers| + 3
    case Test => |s.buffers| + 4
    case Recycle => |s.buffers| + 5
    case Write => |s.toWrite| - s.written + |s.buffers| + 6
    case Lock => |s.buffers| + 8
  }

  predicate Backend(step: Step) {
    !step.AppendLine? && !step.StopFlag?
  }

  function Count(steps: seq<Step>, backend: bool): nat {
    if steps == [] then 0
    else (if if backend then Backend(steps[0]) else steps[0].AppendLine? then 1 else 0) + Count(steps[1..], backend)
  }

  lemma AppendApproaches(s: Logger, line: Bytes)
    requires s.current.Some? && !AfterSweep(s)
    ensures Remaining(Append(s, line)) <= Remaining(s) + 1
  {
    assert |Append(s, line).buffers| <= |s.buffers| + 1;
  }

  lemma SwapApproaches(s: Logger)
    requires Pointers(s) && s.current.Some?
    ensures s.pc == Lock ==> Remaining(SwapIn(s)) < Remaining(s)
    ensures s.pc == Sweep ==> Remaining(SweepUp(s)) < Remaining(s)
  {
  }

  lemma StepApproaches(s: Logger, step: Step)
    requires Pointers(s) && s.written <= |s.toWrite| && !s.running && Enabled(s, step) && Safe(s, step)
    ensures Remaining(Next(s, step))
      <= Remaining(s) + (if step.AppendLine? then 1 else 0) - (if Backend(step) then 1 else 0)
  {
    match step
    case AppendLine(line) => AppendApproaches(s, line);
    case SwapStep => SwapApproaches(s);
    case SweepStep => SwapApproaches(s);
    case _ =>
  }

  /** Once running_ is off the backend is done within boundedly many of its steps; each line appended meanwhile adds
      at most one. */
  lemma {:induction false} StopTakesBoundedSteps(s: Logger, steps: seq<Step>)
    requires Inv(s) && !s.running && IsRun(s, steps)
    ensures 0 <= Remaining(After(s, steps))
    ensures Count(steps, true) + Remaining(After(s, steps)) <= Remaining(s) + Count(steps, false)
    decreases steps
  {
    if steps != [] {
      StepApproaches(s, steps[0]);
      StepKeeps(s, steps[0]);
      StopTakesBoundedSteps(Next(s, steps[0]), steps[1..]);
    }
  }

  /** And until it is done one of those steps is always possible. */
  lemma BackendCanAdvance(s: Logger)
    requires Inv(s) && s.pc != Closed
    ensures exists step :: Backend(step) && Enabled(s, step)
  {
    var step := match s.pc
      case Test => TestRunning
      case Lock => SwapStep
      case Write => if s.written < |s.toWrite| then WriteStep else WriteEnd
      case Recycle => RecycleStep
      case Sweep => SweepStep
      case _ => if s.written < |s.toWrite| then WriteStep else Close;
    assert Backend(step) && Enabled(s, step);
  }
}

/** AsyncLogging as an object: a method per locked section, and the backend's loops. */
module LoggerCode {
  import opened Prelude
  import Spec = LoggerSpec

  class AsyncLogging {
    var currentBuffer: Option<Bytes>
    var nextBuffer: Option<Bytes>
    var buffers: seq<Bytes>
    // Locals of ThreadFunc.
    var buffer1: Option<Bytes>
    var buffer2: Option<Bytes>
    var buffersToWrite: seq<Bytes>
    var written: nat
    var running: bool
    ghost var pc: Spec.Pc
    ghost var file: Bytes
    ghost var offered: seq<Bytes>
    ghost var accepted: Bytes

    ghost function View(): Spec.Logger
      reads this
    {
      Spec.Logger(currentBuffer, nextBuffer, buffers, buffer1, buffer2, buffersToWrite, written,
                  pc, running, file, offered, accepted)
    }

    constructor ()
      ensures View() == Spec.START
    {
      currentBuffer, nextBuffer, buffers := Some(""), Some(""), [];
      buffer1, buffer2, buffersToWrite, written := Some(""), Some(""), [], 0;
      running, pc, file, offered, accepted := true, Spec.Test, "", [], "";
    }

    method Append(line: Bytes) returns (needNotify: bool)
      requires !Spec.AfterSweep(View()) && currentBuffer.Some?
      modifies this
      ensures View() == Spec.Next(old(View()), Spec.AppendLine(line))
      ensures needNotify <==> |buffers| > |old(buffers)|
    {
      offered := offered + [line];
      if |line| < Spec.CAPACITY { accepted := accepted + line; }
      if Spec.CAPACITY - |currentBuffer.value| > |line| {
        currentBuffer := Some(Spec.Put(currentBuffer.value, line));
        needNotify := false;
      } else {
        buffers := buffers + [currentBuffer.value];
        if nextBuffer.Some? {
          currentBuffer := nextBuffer;
          nextBuffer := None;
        } else {
          currentBuffer := Some("");
        }
        currentBuffer := Some(Spec.Put(currentBuffer.value, line));
        needNotify := true;
      }
    }

    /** The locked section at the top of the backend's loop. */
    method SwapIn()
      requires pc == Spec.Lock && currentBuffer.Some?
      modifies this
      ensures View() == Spec.Next(old(View()), Spec.SwapStep)
    {
      buffers := buffers + [currentBuffer.value];
      currentBuffer := buffer1;
      buffer1 := None;
      buffersToWrite, buffers := buffers, buffersToWrite;
      written := 0;
      if nextBuffer.None? {
        nextBuffer := buffer2;
        buffer2 := None;
      }
      pc := Spec.Write;
    }

    /** The loop of fwrite. */
    method WriteOut()
      requires written <= |buffersToWrite|
      modifies this`written, this`file
      ensures written == |buffersToWrite|
      ensures file == old(file) + Concat(old(buffersToWrite[written..]))
    {
      ghost var rest := buffersToWrite[written..];
      assert file + Concat(rest) == old(file) + Concat(rest);
      while written < |buffersToWrite|
        invariant written <= |buffersToWrite|
        invariant file + Concat(buffersToWrite[written..]) == old(file) + Concat(rest)
      {
        assert buffersToWrite[written..] == [buffersToWrite[written]] + buffersToWrite[written + 1..];
        file := file + buffersToWrite[written];
        written := written + 1;
      }
      assert buffersToWrite[written..] == [];
    }

    /** Keeps two buffers in circulation. */
    method RecycleBuffers()
      requires pc == Spec.Recycle && Spec.Safe(View(), Spec.RecycleStep)
      modifies this
      ensures View() == Spec.Next(old(View()), Spec.RecycleStep)
    {
      if |buffersToWrite| > 2 {
        buffersToWrite := buffersToWrite[..2];
      }
      if buffer1.None? {
        buffersToWrite := buffersToWrite[..|buffersToWrite| - 1];
        buffer1 := Some("");
      }
      if buffer2.None? {
        buffersToWrite := buffersToWrite[..|buffersToWrite| - 1];
        buffer2 := Some("");
      }
      buffersToWrite, written := [], 0;
      pc := Spec.Test;
    }

    /** The last sweep, when running_ is off. */
    method SweepUp()
      requires pc == Spec.Sweep && currentBuffer.Some?
      modifies this
      ensures View() == Spec.Next(old(View()), Spec.SweepStep)
    {
      buffers := buffers + [currentBuffer.value];
      currentBuffer := None;
      buffersToWrite, buffers := buffers, buffersToWrite;
      written := 0;
      pc := Spec.LastWrite;
    }
  }
}
