/** The byte buffer of include/reactor/net/Buffer.h and src/net/Buffer.cpp. */
module BufferSpec {
  import opened Prelude

  const INIT_BUFFER_SIZE: nat := 1024
  // The stack buffer that readv spills into.
  const EXTRA_SIZE: nat := 65536

  /** What a buffer is worth: the size of its storage, its read index and its readable bytes. */
  datatype View = View(size: nat, readIndex: nat, content: Bytes) {
    predicate Valid() {
      readIndex + |content| <= size
    }

    function WriteIndex(): nat {
      readIndex + |content|
    }

    function Writable(): nat
      requires Valid()
    {
      size - WriteIndex()
    }

    // The most one readv can deliver: the spill buffer is offered only when the free tail is short.
    function ReadLimit(): nat
      requires Valid()
    {
      if Writable() < EXTRA_SIZE then Writable() + EXTRA_SIZE else Writable()
    }
  }

  type ValidView = v: View | v.Valid() witness View(0, 0, "")

  const Fresh: ValidView := View(INIT_BUFFER_SIZE, 0, "")

  function MakeSpace(b: View, len: nat): (r: View)
    requires b.Valid()
    ensures r.Valid() && r.content == b.content
    ensures b.Writable() < len ==> r.Writable() >= len
  {
    if b.Writable() + b.readIndex < len then
      b.(size := b.WriteIndex() + len)
    else
      b.(readIndex := 0)
  }

  function EnsureWritable(b: View, len: nat): (r: View)
    requires b.Valid()
    ensures r.Valid() && r.Writable() >= len && r.content == b.content
  {
    if b.Writable() < len then MakeSpace(b, len) else b
  }

  function Append(b: View, data: Bytes): (r: View)
    requires b.Valid()
    ensures r.Valid() && r.content == b.content + data
  {
    var e := EnsureWritable(b, |data|);
    e.(content := e.content + data)
  }

  /** All of the storage can be written again. */
  function RetrieveAll(b: View): (r: View)
    ensures r.Valid() && r.content == "" && r.Writable() == b.size == r.size
  {
    b.(readIndex := 0, content := "")
  }

  function Retrieve(b: View, len: nat): (r: View)
    requires b.Valid()
    ensures r.Valid() && r.content == b.content[Min(len, |b.content|)..] && r.size == b.size
    ensures r.Writable() == if len < |b.content| then b.Writable() else b.size
  {
    if len < |b.content| then
      b.(readIndex := b.readIndex + len, content := b.content[len..])
    else
      RetrieveAll(b)
  }

  /** What readv takes of the bytes the kernel holds. */
  function Taken(b: View, offer: Bytes): Bytes
    requires b.Valid()
  {
    offer[..Min(|offer|, b.ReadLimit())]
  }

  function ReadFd(b: View, offer: Bytes): (r: View)
    requires b.Valid()
    ensures r.Valid() && r.content == b.content + Taken(b, offer)
  {
    var got := Taken(b, offer);
    if |got| <= b.Writable() then
      b.(content := b.content + got)
    else
      var full := b.(content := b.content + got[..b.Writable()]);
      assert b.content + got == (b.content + got[..b.Writable()]) + got[b.Writable()..];
      Append(full, got[b.Writable()..])
  }

  // The largest storage a buffer reaches when it is emptied between reads:
  // one byte short of the spill threshold, plus one full spill.
  const DRAINED_MAX: nat := 131071

  ghost predicate Drained(b: View) {
    b.readIndex == 0 && b.content == "" && b.size <= DRAINED_MAX
  }

  /** One read into an emptied buffer yields at most DRAINED_MAX bytes, and leaves storage of that size. */
  lemma ReadIntoDrained(b: View, offer: Bytes)
    requires Drained(b)
    ensures |ReadFd(b, offer).content| <= ReadFd(b, offer).size <= DRAINED_MAX
    ensures Drained(RetrieveAll(ReadFd(b, offer)))
    ensures offer != "" ==> ReadFd(b, offer).content != ""
  {
  }

  /** A read leaves nothing behind of up to 65536 bytes, nor of what fits behind the contents, and it is always a
      front part of what the kernel holds. */
  lemma ReadTakesAll(b: View, offer: Bytes)
    requires b.Valid()
    ensures Taken(b, offer) <= offer
    ensures Taken(b, offer) == offer
      <==> |offer| <= 65536 + (if b.Writable() < 65536 then b.Writable() else b.Writable() - 65536)
    ensures |offer| <= 65536 || |offer| <= b.Writable() ==> Taken(b, offer) == offer
  {
  }

  // ---------- The first "\r\n" ----------

  ghost predicate CrlfAt(s: Bytes, k: nat) {
    k + 2 <= |s| && s[k] == '\r' && s[k + 1] == '\n'
  }

  function FindCrlf(s: Bytes): (r: Option<nat>)
    ensures r.Some? ==> CrlfAt(s, r.value) && forall j: nat :: j < r.value ==> !CrlfAt(s, j)
    ensures r.None? ==> forall j: nat :: !CrlfAt(s, j)
  {
    if |s| < 2 then None
    else if s[0] == '\r' && s[1] == '\n' then Some(0)
    else
      var rest := FindCrlf(s[1..]);
      assert forall j: nat :: 0 < j && CrlfAt(s, j) ==> CrlfAt(s[1..], j - 1);
      if rest.Some? then
        assert CrlfAt(s, rest.value + 1);
        assert forall j: nat :: 0 < j < rest.value + 1 && CrlfAt(s, j) ==> CrlfAt(s[1..], j - 1);
        Some(rest.value + 1)
      else None
  }

  /** Bytes that arrive later never move the first line end already in the buffer. */
  lemma FindCrlfExtends(s: Bytes, more: Bytes)
    requires FindCrlf(s).Some?
    ensures FindCrlf(s + more) == FindCrlf(s)
  {
    var k := FindCrlf(s).value;
    assert CrlfAt(s + more, k);
    assert forall j: nat :: j < k && CrlfAt(s + more, j) ==> CrlfAt(s, j);
  }

  /** A line without '\r' followed by a line end is found exactly at its own length. */
  lemma FindCrlfAfter(line: Bytes, rest: Bytes)
    requires '\r' !in line
    ensures FindCrlf(line + "\r\n" + rest) == Some(|line|)
  {
    var s := line + "\r\n" + rest;
    assert CrlfAt(s, |line|);
    assert forall j: nat :: j < |line| ==> s[j] == line[j];
  }

  // ---------- Runs: the buffer is a byte queue ----------

  datatype Op = OpAppend(data: Bytes) | OpRead(offer: Bytes) | OpRetrieve(len: nat) | OpRetrieveAll

  function Apply(b: View, op: Op): (r: View)
    requires b.Valid()
    ensures r.Valid()
  {
    match op
    case OpAppend(data) => Append(b, data)
    case OpRead(offer) => ReadFd(b, offer)
    case OpRetrieve(len) => Retrieve(b, len)
    case OpRetrieveAll => RetrieveAll(b)
  }

  function Run(b: View, ops: seq<Op>): (r: View)
    requires b.Valid()
    ensures r.Valid()
    decreases ops
  {
    if ops == [] then b else Run(Apply(b, ops[0]), ops[1..])
  }

  /** The bytes one operation puts in, and how many it takes out. */
  function PutNow(b: View, op: Op): Bytes
    requires b.Valid()
  {
    match op
    case OpAppend(data) => data
    case OpRead(offer) => Taken(b, offer)
    case _ => ""
  }

  function GotNow(b: View, op: Op): nat {
    match op
    case OpRetrieve(len) => Min(len, |b.content|)
    case OpRetrieveAll => |b.content|
    case _ => 0
  }

  function Put(b: View, ops: seq<Op>): Bytes
    requires b.Valid()
    decreases ops
  {
    if ops == [] then "" else PutNow(b, ops[0]) + Put(Apply(b, ops[0]), ops[1..])
  }

  function Got(b: View, ops: seq<Op>): nat
    requires b.Valid()
    decreases ops
  {
    if ops == [] then 0 else GotNow(b, ops[0]) + Got(Apply(b, ops[0]), ops[1..])
  }

  /** One operation on the queue. */
  lemma ApplyIsQueue(b: View, op: Op)
    requires b.Valid()
    ensures GotNow(b, op) <= |b.content|
    ensures Apply(b, op).content == (b.content + PutNow(b, op))[GotNow(b, op)..]
  {
  }

  /** First in, first out: over any run the readable bytes are what was there and what was put in,
      less a prefix; compaction and growth never lose, repeat or reorder a byte. */
  lemma {:induction false} RunIsQueue(b: View, ops: seq<Op>)
    requires b.Valid()
    ensures Got(b, ops) <= |b.content| + |Put(b, ops)|
    ensures Run(b, ops).content == (b.content + Put(b, ops))[Got(b, ops)..]
    decreases ops
  {
    if ops != [] {
      var c := Apply(b, ops[0]);
      var later := Put(c, ops[1..]);
      var g := GotNow(b, ops[0]);
      RunIsQueue(c, ops[1..]);
      ApplyIsQueue(b, ops[0]);
      DropAppend(b.content, PutNow(b, ops[0]), later, g);
      DropDrop(b.content + Put(b, ops), g, Got(c, ops[1..]));
    }
  }
}

/** The class, operation by operation equal to the functions above. */
module BufferCode {
  import opened Prelude
  import Spec = BufferSpec

  class Buffer {
    var data: array<char>
    var readIndex: nat
    var writeIndex: nat
    ghost var Repr: set<object>

    ghost predicate Valid()
      reads this, Repr
      ensures Valid() ==> this in Repr
    {
      this in Repr && data in Repr && Repr == {this, data} && readIndex <= writeIndex <= data.Length
    }

    ghost function View(): (v: Spec.View)
      requires Valid()
      reads this, Repr
      ensures v.Valid() && v.WriteIndex() == writeIndex
    {
      Spec.View(data.Length, readIndex, data[readIndex..writeIndex])
    }

    constructor (initSize: nat)
      ensures Valid() && fresh(Repr)
      ensures View() == Spec.View(initSize, 0, "")
    {
      data := new char[initSize](_ => '\0');
      readIndex, writeIndex := 0, 0;
      Repr := {this, data};
    }

    method RetrieveAll()
      requires Valid()
      modifies this`readIndex, this`writeIndex
      ensures Valid() && View() == Spec.RetrieveAll(old(View()))
    {
      readIndex, writeIndex := 0, 0;
    }

    method Retrieve(len: nat)
      requires Valid()
      modifies this`readIndex, this`writeIndex
      ensures Valid() && View() == Spec.Retrieve(old(View()), len)
    {
      if len < writeIndex - readIndex {
        readIndex := readIndex + len;
      } else {
        RetrieveAll();
      }
    }

    /** Moves the read index to `end`, an offset into the readable bytes. */
    method RetrieveUntil(end: nat)
      requires Valid() && end <= |View().content|
      modifies this`readIndex, this`writeIndex
      ensures Valid() && View() == Spec.Retrieve(old(View()), end)
      ensures View().content == old(View()).content[end..]
    {
      Retrieve(end);
    }

    method MakeSpace(len: nat)
      requires Valid()
      modifies this, data
      ensures Valid() && fresh(Repr - old(Repr))
      ensures View() == Spec.MakeSpace(old(View()), len)
      ensures readIndex == 0 || data.Length == writeIndex + len
    {
      if data.Length - writeIndex + readIndex < len {
        Resize(writeIndex + len);
      } else {
        MoveToFront();
      }
    }

    /** resize: a larger block holding the same bytes. */
    method Resize(size: nat)
      requires Valid() && writeIndex <= size
      modifies this`data, this`Repr
      ensures Valid() && fresh(Repr - old(Repr)) && data.Length == size
      ensures View() == old(View()).(size := size)
    {
      ghost var was := View().content;
      var bigger := new char[size](_ => '\0');
      for i := 0 to writeIndex
        invariant unchanged(this) && unchanged(data)
        invariant forall k :: 0 <= k < i ==> bigger[k] == data[k]
      {
        bigger[i] := data[i];
      }
      data := bigger;
      Repr := {this, data};
      assert data[readIndex..writeIndex] == was;
    }

    /** The readable bytes move to the front of the block, in place. */
    method MoveToFront()
      requires Valid()
      modifies this`readIndex, this`writeIndex, data
      ensures Valid() && View() == old(View()).(readIndex := 0)
    {
      ghost var was := View().content;
      var readable := writeIndex - readIndex;
      for i := 0 to readable
        invariant unchanged(this)
        invariant data[..i] == was[..i]
        invariant data[readIndex + i..writeIndex] == was[i..]
      {
        assert data[readIndex + i] == was[i..][0];
        data[i] := data[readIndex + i];
        assert data[readIndex + i + 1..writeIndex] == was[i..][1..];
      }
      readIndex := 0;
      writeIndex := readable;
    }

    /** Two neighbouring stretches of a block. */
    static lemma ArraySplit(a: array<char>, i: nat, j: nat, k: nat)
      requires i <= j <= k <= a.Length
      ensures a[i..k] == a[i..j] + a[j..k]
    {
    }

    /** Copies bytes into the free tail and advances the write index. */
    method Store(bytes: Bytes)
      requires Valid() && |bytes| <= data.Length - writeIndex
      modifies this`writeIndex, data
      ensures Valid() && View() == old(View()).(content := old(View()).content + bytes)
    {
      ghost var was := View().content;
      for i := 0 to |bytes|
        invariant unchanged(this)
        invariant data[readIndex..writeIndex] == was
        invariant data[writeIndex..writeIndex + i] == bytes[..i]
      {
        data[writeIndex + i] := bytes[i];
      }
      writeIndex := writeIndex + |bytes|;
      ArraySplit(data, readIndex, writeIndex - |bytes|, writeIndex);
    }

    method Append(bytes: Bytes)
      requires Valid()
      modifies this, data
      ensures Valid() && fresh(Repr - old(Repr))
      ensures View() == Spec.Append(old(View()), bytes)
    {
      if data.Length - writeIndex < |bytes| {
        MakeSpace(|bytes|);
      }
      Store(bytes);
    }

    /** `offer` is what the kernel holds for this descriptor, None when readv fails; n is what readv returns. */
    method ReadFd(offer: Option<Bytes>) returns (n: int)
      requires Valid()
      modifies this, data
      ensures Valid() && fresh(Repr - old(Repr))
      ensures offer.None? ==> View() == old(View()) && n == -1
      ensures offer.Some? ==>
        View() == Spec.ReadFd(old(View()), offer.value) && n == |Spec.Taken(old(View()), offer.value)|
    {
      if offer.None? {
        return -1;
      }
      n := Fill(offer.value);
    }

    /** A readv that delivers. */
    method Fill(offer: Bytes) returns (n: nat)
      requires Valid()
      modifies this, data
      ensures Valid() && fresh(Repr - old(Repr))
      ensures View() == Spec.ReadFd(old(View()), offer) && n == |Spec.Taken(old(View()), offer)|
    {
      var writable := data.Length - writeIndex;
      var limit := if writable < Spec.EXTRA_SIZE then writable + Spec.EXTRA_SIZE else writable;
      n := if |offer| <= limit then |offer| else limit;
      var got := offer[..n];
      if n <= writable {
        Store(got);
      } else {
        Store(got[..writable]);
        Append(got[writable..]);
      }
    }

    method FindCRLF() returns (r: Option<nat>)
      requires Valid()
      ensures r == Spec.FindCrlf(View().content)
    {
      ghost var s := View().content;
      var i := readIndex;
      while i + 1 < writeIndex
        invariant readIndex <= i <= writeIndex
        invariant forall j: nat :: j < i - readIndex ==> !Spec.CrlfAt(s, j)
      {
        if data[i] == '\r' && data[i + 1] == '\n' {
          assert Spec.CrlfAt(s, i - readIndex);
          return Some(i - readIndex);
        }
        i := i + 1;
      }
      return None;
    }
  }
}
