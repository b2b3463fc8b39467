/** The log line's buffer and the conversion of integers to text (include/reactor/log/LogStream.h,
    src/log/LogStream.cpp). */
module LogStreamSpec {
  import opened Prelude
  import opened Decimal

  // The table of the source: its middle is the zero, so a negative remainder picks its own digit.
  const DIGITS := "9876543210123456789"
  const ZERO := 9

  // The smallest long long and the largest unsigned long long; every integer argument lies between them.
  const MIN_ARG := -0x8000_0000_0000_0000
  const MAX_ARG := 0xffff_ffff_ffff_ffff

  predicate Argument(v: int) {
    MIN_ARG <= v <= MAX_ARG
  }

  function Abs(v: int): nat {
    if v < 0 then -v else v
  }

  /** Division and remainder of C++ truncate toward zero. */
  function TruncDiv(v: int, d: nat): int
    requires d > 0
  {
    if v < 0 then -(-v / d) else v / d
  }

  function TruncMod(v: int, d: nat): int
    requires d > 0
  {
    v - d * TruncDiv(v, d)
  }

  function Reversed(s: string): (r: string)
    ensures |r| == |s|
  {
    if s == "" then "" else [s[|s| - 1]] + Reversed(s[..|s| - 1])
  }

  lemma {:induction false} ReversedAt(s: string, k: nat)
    requires k < |s|
    ensures Reversed(s)[k] == s[|s| - 1 - k]
  {
    if k > 0 { ReversedAt(s[..|s| - 1], k - 1); }
  }

  /** One turn of the digit loop on a remaining value, positive or negative. */
  lemma DigitOf(i: int)
    ensures Abs(TruncDiv(i, 10)) == Abs(i) / 10
    ensures -9 <= TruncMod(i, 10) <= 9
    ensures DIGITS[ZERO + TruncMod(i, 10)] == DigitChar(Abs(i) % 10)
    ensures i <= TruncDiv(i, 10) <= 0 || 0 <= TruncDiv(i, 10) <= i
    ensures (i == 0 || TruncDiv(i, 10) == 0) <==> Abs(i) < 10
  {
    var m := TruncMod(i, 10);
    assert Abs(m) == Abs(i) % 10;
    TableIsSymmetric(m);
  }

  lemma TableIsSymmetric(m: int)
    requires -9 <= m <= 9
    ensures DIGITS[ZERO + m] == DigitChar(Abs(m))
  {
  }

  /** The digits still to come, followed by the emitted ones in reading order, are always the digits of v. */
  lemma DigitLoopTurn(v: int, i: int, emitted: string)
    requires Digits(Abs(v)) == Digits(Abs(i)) + Reversed(emitted)
    ensures var j := TruncDiv(i, 10);
      -9 <= TruncMod(i, 10) <= 9 &&
      Digits(Abs(v)) == (if j == 0 then "" else Digits(Abs(j))) + Reversed(emitted + [DIGITS[ZERO + TruncMod(i, 10)]])
    ensures |emitted| < |Digits(Abs(v))|
  {
    DigitOf(i);
    PeelDigit(Digits(Abs(v)), Abs(i), emitted, DIGITS[ZERO + TruncMod(i, 10)]);
  }

  lemma PeelDigit(all: string, n: nat, emitted: string, c: char)
    requires all == Digits(n) + Reversed(emitted) && c == DigitChar(n % 10)
    ensures all == (if n < 10 then "" else Digits(n / 10)) + Reversed(emitted + [c])
    ensures |emitted| < |all|
  {
    ReversedSnoc(emitted, c);
    LastDigit(n);
    Associate(if n < 10 then "" else Digits(n / 10), [c], Reversed(emitted));
  }

  lemma LastDigit(n: nat)
    ensures Digits(n) == (if n < 10 then "" else Digits(n / 10)) + [DigitChar(n % 10)]
  {
  }

  lemma ReversedSnoc(s: string, c: char)
    ensures Reversed(s + [c]) == [c] + Reversed(s)
  {
    assert (s + [c])[..|s|] == s;
  }

  /** The number that a signed decimal text denotes. */
  function Denotes(s: string): int
    requires s != "" && AllDigits(if s[0] == '-' then s[1..] else s)
  {
    if s[0] == '-' then -(Value(s[1..]) as int) else Value(s)
  }

  /** The text of an integer reads back as that integer and has no superfluous sign or zero. */
  lemma TextDenotes(v: int)
    ensures var t := Text(v);
      && t != "" && AllDigits(if t[0] == '-' then t[1..] else t)
      && Denotes(t) == v
      && (t[0] == '-' <==> v < 0)
      && (t[0] == '0' <==> v == 0)
      && (v < 0 ==> t[1] != '0')
  {
    ValueOfDigits(Abs(v));
    NoLeadingZero(Abs(v));
    assert IsDigit(Digits(Abs(v))[0]);
    if v < 0 { assert Text(v)[1..] == Digits(-v); }
  }

  /** Different integers have different texts. */
  lemma TextIsInjective(v: int, w: int)
    requires Text(v) == Text(w)
    ensures v == w
  {
    TextDenotes(v);
    TextDenotes(w);
  }

  lemma PowersOfTen()
    ensures Pow10(19) == 10_000_000_000_000_000_000
    ensures Pow10(20) == 100_000_000_000_000_000_000
  {
    assert Pow10(5) == 100_000;
    assert Pow10(10) == 100_000 * Pow10(5);
    assert Pow10(15) == 100_000 * Pow10(10);
    assert Pow10(20) == 100_000 * Pow10(15);
  }

  /** With its terminator the text of any argument needs at most 21 characters, so 32 free ones are enough. */
  lemma TextFits(v: int)
    requires Argument(v)
    ensures |Text(v)| + 1 <= 21
  {
    PowersOfTen();
    if v < 0 { DigitsLength(-v, 19); } else { DigitsLength(v, 20); }
  }

  // ---------- A line ----------

  // What << is given: a string, a flag or a character arrive as their text.
  datatype Piece = Text_(text: string) | Number(value: int)

  function Print(p: Piece): string {
    match p
    case Text_(text) => text
    case Number(value) => Text(value)
  }

  /** A piece goes in whole or not at all: text needs one character to spare, a number 32 free ones. */
  predicate Fits(capacity: nat, used: nat, p: Piece) {
    match p
    case Text_(text) => capacity - used > |text|
    case Number(_) => capacity - used >= 32
  }

  function Write(capacity: nat, line: string, p: Piece): string {
    if Fits(capacity, |line|, p) then line + Print(p) else line
  }

  function WriteAll(capacity: nat, line: string, pieces: seq<Piece>): string
    decreases pieces
  {
    if pieces == [] then line else WriteAll(capacity, Write(capacity, line, pieces[0]), pieces[1..])
  }

  function Texts(pieces: seq<Piece>): string {
    if pieces == [] then "" else Print(pieces[0]) + Texts(pieces[1..])
  }

  predicate Arguments(pieces: seq<Piece>) {
    forall p :: p in pieces && p.Number? ==> Argument(p.value)
  }

  /** A text goes in exactly when one more character than its own are free, a number exactly when 32 are. */
  lemma WriteIff(capacity: nat, line: string, text: string, v: int)
    requires |line| <= capacity
    ensures var out := Write(capacity, line, Text_(text));
      (out == line + text <==> text == "" || |line| + |text| + 1 <= capacity) && (out != line + text ==> out == line)
    ensures var out := Write(capacity, line, Number(v));
      (out == line + Text(v) <==> |line| + 32 <= capacity) && (out != line + Text(v) ==> out == line)
  {
    assert line + "" == line;
    TextDenotes(v);
  }

  /** The line never fills its buffer: one character stays free. */
  lemma {:induction false} LineLeavesRoom(capacity: nat, line: string, pieces: seq<Piece>)
    requires |line| < capacity && Arguments(pieces)
    ensures line <= WriteAll(capacity, line, pieces)
    ensures |WriteAll(capacity, line, pieces)| < capacity
    decreases pieces
  {
    if pieces != [] {
      if pieces[0].Number? { TextFits(pieces[0].value); }
      LineLeavesRoom(capacity, Write(capacity, line, pieces[0]), pieces[1..]);
    }
  }

  /** A line of texts is complete exactly when it is shorter than the buffer. */
  lemma {:induction false} TextsKeptIff(capacity: nat, line: string, pieces: seq<Piece>)
    requires |line| < capacity && forall p :: p in pieces ==> p.Text_?
    ensures WriteAll(capacity, line, pieces) == line + Texts(pieces) <==> |line| + |Texts(pieces)| < capacity
    decreases pieces
  {
    if pieces == [] {
      assert line + Texts(pieces) == line;
    } else {
      var next := Write(capacity, line, pieces[0]);
      TextsKeptIff(capacity, next, pieces[1..]);
      LineLeavesRoom(capacity, next, pieces[1..]);
      Associate(line, pieces[0].text, Texts(pieces[1..]));
      assert |Texts(pieces)| == |pieces[0].text| + |Texts(pieces[1..])|;
    }
  }

  /** Each piece fits behind the texts of the pieces before it. */
  predicate AllFit(capacity: nat, used: nat, pieces: seq<Piece>)
    decreases pieces
  {
    pieces == [] || (Fits(capacity, used, pieces[0]) && AllFit(capacity, used + |Print(pieces[0])|, pieces[1..]))
  }

  lemma {:induction false} WriteAllIsNoLonger(capacity: nat, line: string, pieces: seq<Piece>)
    ensures |WriteAll(capacity, line, pieces)| <= |line| + |Texts(pieces)|
    decreases pieces
  {
    if pieces != [] { WriteAllIsNoLonger(capacity, Write(capacity, line, pieces[0]), pieces[1..]); }
  }

  lemma ArgumentsTail(pieces: seq<Piece>)
    requires pieces != [] && Arguments(pieces)
    ensures Arguments(pieces[1..]) && (pieces[0].Number? ==> Argument(pieces[0].value))
  {
  }

  lemma FittingLeavesRoom(capacity: nat, line: string, p: Piece)
    requires Fits(capacity, |line|, p) && (p.Number? ==> Argument(p.value))
    ensures |line + Print(p)| < capacity
  {
    if p.Number? { TextFits(p.value); }
  }

  /** A piece that does not fit is missing for good. */
  lemma UnfitIsLost(capacity: nat, line: string, pieces: seq<Piece>)
    requires |line| < capacity && pieces != [] && !Fits(capacity, |line|, pieces[0])
    ensures WriteAll(capacity, line, pieces) != line + Texts(pieces)
  {
    WriteAllIsNoLonger(capacity, line, pieces[1..]);
    assert |Print(pieces[0])| > 0;
    assert |Texts(pieces)| == |Print(pieces[0])| + |Texts(pieces[1..])|;
  }

  /** A line is complete exactly when each piece, number or text, fits behind the texts before it. */
  lemma {:induction false} LineKeptIff(capacity: nat, line: string, pieces: seq<Piece>)
    requires |line| < capacity && Arguments(pieces)
    ensures WriteAll(capacity, line, pieces) == line + Texts(pieces) <==> AllFit(capacity, |line|, pieces)
    decreases pieces
  {
    if pieces == [] {
      assert line + Texts(pieces) == line;
    } else if Fits(capacity, |line|, pieces[0]) {
      var p := pieces[0];
      ArgumentsTail(pieces);
      FittingLeavesRoom(capacity, line, p);
      LineKeptIff(capacity, line + Print(p), pieces[1..]);
      Associate(line, Print(p), Texts(pieces[1..]));
    } else {
      UnfitIsLost(capacity, line, pieces);
    }
  }

  /** A line with numbers is complete when 32 characters would still be free after it. */
  lemma {:induction false} LineKept(capacity: nat, line: string, pieces: seq<Piece>)
    requires |line| + |Texts(pieces)| + 32 <= capacity
    ensures WriteAll(capacity, line, pieces) == line + Texts(pieces)
    decreases pieces
  {
    if pieces == [] {
      assert line + Texts(pieces) == line;
    } else {
      var next := line + Print(pieces[0]);
      Associate(line, Print(pieces[0]), Texts(pieces[1..]));
      LineKept(capacity, next, pieces[1..]);
    }
  }
}

module LogStreamCode {
  import opened Prelude
  import opened Decimal
  import opened LogStreamSpec

  class LogBuffer {
    const data: array<char>
    var cur: nat

    ghost predicate Valid()
      reads this
    {
      cur <= data.Length
    }

    ghost function Contents(): string
      requires Valid()
      reads this, data
    {
      data[..cur]
    }

    constructor (size: nat)
      ensures Valid() && fresh(data) && data.Length == size && cur == 0
    {
      data := new char[size](_ => '\0');
      cur := 0;
    }

    function Avail(): nat
      requires Valid()
      reads this
    {
      data.Length - cur
    }

    method Append(buf: string)
      requires Valid()
      modifies this`cur, data
      ensures Valid()
      ensures Contents() == if data.Length - old(cur) > |buf| then old(Contents()) + buf else old(Contents())
      ensures forall k :: cur <= k < data.Length ==> data[k] == old(data[k])
    {
      if Avail() > |buf| {
        for i := 0 to |buf|
          invariant cur == old(cur) && cur + |buf| < data.Length
          invariant data[..cur] == old(data[..cur])
          invariant data[cur..cur + i] == buf[..i]
          invariant forall k :: cur + |buf| <= k < data.Length ==> data[k] == old(data[k])
        {
          data[cur + i] := buf[i];
        }
        assert data[..cur + |buf|] == data[..cur] + data[cur..cur + |buf|];
        cur := cur + |buf|;
      }
    }

    method Reset()
      modifies this`cur
      ensures Valid() && Contents() == ""
    {
      cur := 0;
    }
  }

  /** std::reverse on a[lo..hi]. */
  method Reverse(a: array<char>, lo: nat, hi: nat)
    requires lo <= hi <= a.Length
    modifies a
    ensures forall k :: 0 <= k < a.Length && (k < lo || hi <= k) ==> a[k] == old(a[k])
    ensures a[lo..hi] == Reversed(old(a[lo..hi]))
  {
    ghost var was := a[lo..hi];
    var i, j := lo, hi;
    while i + 1 < j
      invariant lo <= i <= j <= hi && i - lo == hi - j
      invariant forall k :: 0 <= k < a.Length && (k < lo || i <= k < j || hi <= k) ==> a[k] == old(a[k])
      invariant forall k :: lo <= k < i ==> a[k] == old(a[lo + hi - 1 - k])
      invariant forall k :: j <= k < hi ==> a[k] == old(a[lo + hi - 1 - k])
    {
      j := j - 1;
      a[i], a[j] := a[j], a[i];
      i := i + 1;
    }
    forall k | lo <= k < hi ensures a[k] == was[hi - 1 - k] {
      assert was[hi - 1 - k] == old(a[lo + hi - 1 - k]);
    }
    forall k | 0 <= k < hi - lo ensures a[lo..hi][k] == Reversed(was)[k] {
      ReversedAt(was, k);
      assert a[lo + k] == was[hi - 1 - (lo + k)];
    }
  }

  class LogStream {
    const buffer: LogBuffer

    constructor (size: nat)
      ensures buffer.Valid() && fresh(buffer) && fresh(buffer.data)
      ensures buffer.data.Length == size && buffer.Contents() == ""
    {
      buffer := new LogBuffer(size);
    }

    /** Nothing before the end of the contents or from n characters behind it on has changed. */
    twostate predicate TouchesOnly(n: nat)
      reads buffer, buffer.data
    {
      forall k :: 0 <= k < buffer.data.Length && (k < buffer.cur || buffer.cur + n <= k) ==>
        buffer.data[k] == old(buffer.data[k])
    }

    /** *p = c. */
    method Put(p: nat, c: char)
      requires buffer.cur <= p < buffer.data.Length
      modifies buffer.data
      ensures buffer.data[buffer.cur..p] == old(buffer.data[buffer.cur..p])
      ensures buffer.data[buffer.cur..p + 1] == old(buffer.data[buffer.cur..p]) + [c] && buffer.data[p] == c
      ensures forall k :: 0 <= k < buffer.data.Length && k != p ==> buffer.data[k] == old(buffer.data[k])
    {
      buffer.data[p] := c;
    }

    /** One turn of the digit loop: *p++ = zero[i % 10], i /= 10. */
    method EmitDigit(v: int, i: int, p: nat, ghost emitted: string) returns (j: int, ghost next: string)
      requires buffer.cur <= p < buffer.data.Length && buffer.data[buffer.cur..p] == emitted
      requires Digits(Abs(v)) == Digits(Abs(i)) + Reversed(emitted)
      modifies buffer.data
      ensures buffer.data[buffer.cur..p + 1] == next && |next| == |emitted| + 1 <= |Digits(Abs(v))|
      ensures Digits(Abs(v)) == (if j == 0 then "" else Digits(Abs(j))) + Reversed(next)
      ensures forall k :: 0 <= k < buffer.data.Length && k != p ==> buffer.data[k] == old(buffer.data[k])
    {
      DigitLoopTurn(v, i, emitted);
      var c := DIGITS[ZERO + TruncMod(i, 10)];
      j := TruncDiv(i, 10);
      Put(p, c);
      next := emitted + [c];
    }

    /** The digit loop writes behind the contents, low digit first. */
    method EmitDigits(v: int) returns (p: nat)
      requires buffer.Valid() && buffer.Avail() >= 32 && |Digits(Abs(v))| <= 20
      modifies buffer.data
      ensures buffer.cur <= p <= buffer.cur + 20
      ensures Reversed(buffer.data[buffer.cur..p]) == Digits(Abs(v))
      ensures TouchesOnly(20)
    {
      ghost var all := Digits(Abs(v));
      ghost var emitted;
      var i;
      p := buffer.cur;
      i, emitted := EmitDigit(v, v, p, "");
      p := p + 1;
      while i != 0
        invariant p == buffer.cur + |emitted| && |emitted| <= |all|
        invariant all == (if i == 0 then "" else Digits(Abs(i))) + Reversed(emitted)
        invariant buffer.data[buffer.cur..p] == emitted
        invariant TouchesOnly(20)
        decreases |all| - |emitted|
      {
        i, emitted := EmitDigit(v, i, p, emitted);
        p := p + 1;
      }
    }

    /** The sign of a negative number goes last, the terminator behind it. */
    method EmitSign(v: int, p: nat) returns (q: nat)
      requires buffer.Valid() && buffer.cur <= p <= buffer.cur + 20 && buffer.Avail() >= 32 && Argument(v)
      requires Reversed(buffer.data[buffer.cur..p]) == Digits(Abs(v))
      modifies buffer.data
      ensures buffer.cur <= q <= buffer.cur + 20 && Reversed(buffer.data[buffer.cur..q]) == Text(v)
      ensures buffer.data[q] == '\0' && TouchesOnly(21)
    {
      ghost var emitted := buffer.data[buffer.cur..p];
      TextFits(v);
      assert |emitted| == |Digits(Abs(v))|;
      q := p;
      if v < 0 {
        Put(q, '-');
        q := q + 1;
        ReversedSnoc(emitted, '-');
      }
      Put(q, '\0');
    }

    /** The text of v, built in place behind the contents. */
    method Build(v: int) returns (p: nat)
      requires buffer.Valid() && buffer.Avail() >= 32 && Argument(v)
      modifies buffer.data
      ensures buffer.cur <= p <= buffer.cur + 20 && buffer.data[buffer.cur..p] == Text(v)
      ensures TouchesOnly(21)
    {
      TextFits(v);
      p := EmitDigits(v);
      p := EmitSign(v, p);
      Reverse(buffer.data, buffer.cur, p);
    }

    method FormatInteger(v: int)
      requires buffer.Valid() && Argument(v)
      modifies buffer`cur, buffer.data
      ensures buffer.Valid()
      ensures buffer.Contents() == Write(buffer.data.Length, old(buffer.Contents()), Number(v))
      ensures forall k :: old(buffer.cur) + 21 <= k < buffer.data.Length ==> buffer.data[k] == old(buffer.data[k])
    {
      if buffer.Avail() >= 32 {
        var p := Build(v);
        buffer.Append(buffer.data[buffer.cur..p]);
      }
    }

    method PutText(text: string)
      requires buffer.Valid()
      modifies buffer`cur, buffer.data
      ensures buffer.Valid()
      ensures buffer.Contents() == Write(buffer.data.Length, old(buffer.Contents()), Text_(text))
    {
      buffer.Append(text);
    }

    method PutBool(v: bool)
      requires buffer.Valid()
      modifies buffer`cur, buffer.data
      ensures buffer.Valid()
      ensures buffer.Contents() == Write(buffer.data.Length, old(buffer.Contents()), Text_(if v then "1" else "0"))
    {
      buffer.Append(if v then "1" else "0");
    }

    /** A const char*, which may be null. */
    method PutCString(text: Option<string>)
      requires buffer.Valid()
      modifies buffer`cur, buffer.data
      ensures buffer.Valid()
      ensures buffer.Contents() ==
        Write(buffer.data.Length, old(buffer.Contents()), Text_(if text.Some? then text.value else "(null)"))
    {
      if text.Some? {
        buffer.Append(text.value);
      } else {
        buffer.Append("(null)");
      }
    }

    /** One statement of << after the other: a line made of these pieces. */
    method PutAll(pieces: seq<Piece>)
      requires buffer.Valid() && Arguments(pieces)
      modifies buffer`cur, buffer.data
      ensures buffer.Valid()
      ensures buffer.Contents() == WriteAll(buffer.data.Length, old(buffer.Contents()), pieces)
    {
      ghost var goal := WriteAll(buffer.data.Length, buffer.Contents(), pieces);
      assert pieces[0..] == pieces;
      for i := 0 to |pieces|
        invariant buffer.Valid()
        invariant WriteAll(buffer.data.Length, buffer.Contents(), pieces[i..]) == goal
      {
        assert pieces[i..][1..] == pieces[i + 1..];
        match pieces[i]
        case Text_(text) => PutText(text);
        case Number(v) =>
          assert pieces[i] in pieces;
          FormatInteger(v);
      }
    }
  }
}
