/** What a rejected request leaves behind, and when the cut of the stream begins to matter. */
module HttpRejection {
  import opened Prelude
  import D = Decimal
  import B = BufferSpec
  import opened HttpSpec
  import opened HttpTheorems

  // ---------- Up to the first rejection ----------

  lemma OneChunkRejected(ctx: Context, left: Bytes, b: Bytes)
    requires Wf(ctx) && ctx.state != GotAll && OnMessage(ctx, left + b).rejected
    ensures UntilRejected(ctx, left, [b]).rejected
  {
    assert [b][1..] == [];
  }

  /** The call that rejects first. Up to and including it, the session is that of one message of the whole stream. */
  lemma {:induction false} FirstRejection(ctx: Context, left: Bytes, chunks: seq<Bytes>) returns (k: nat)
    requires Wf(ctx) && ctx.state != GotAll && UntilRejected(ctx, left, chunks).rejected
    ensures k < |chunks| && !UntilRejected(ctx, left, chunks[..k]).rejected
    ensures UntilRejected(ctx, left, chunks[..k + 1]).rejected
    ensures var u := UntilRejected(ctx, left, chunks); var s := OnMessages(ctx, left, chunks[..k + 1]);
      && s == Session(u.requests, u.ctx, s.rest, 1, false)
      && s.rest + Concat(chunks[k + 1..]) == u.rest
    decreases |chunks|
  {
    var d := OnMessage(ctx, left + chunks[0]);
    if d.rejected {
      k := 0;
      OneCall(ctx, left, chunks[0]);
      OneChunkRejected(ctx, left, chunks[0]);
      assert chunks[..1] == [chunks[0]];
    } else {
      var j := FirstRejection(d.ctx, d.rest, chunks[1..]);
      k := j + 1;
      TakeTail(chunks, k);
      TakeTail(chunks, k + 1);
      ConsTail(chunks[0], chunks[1..][..j]);
      ConsTail(chunks[0], chunks[1..][..j + 1]);
    }
  }

  /** A stream that is rejected as one message is rejected in every cut, by a call up to which the requests, the
      parser state and the verdict are the same; the bytes left and the chunks to come are the bytes left. */
  lemma SameUpToRejection(chunks: seq<Bytes>) returns (k: nat)
    requires OnMessage(NEW, Concat(chunks)).rejected
    ensures k < |chunks|
    ensures OnMessages(NEW, "", chunks[..k]).rejections == 0
    ensures var d := OnMessage(NEW, Concat(chunks)); var s := OnMessages(NEW, "", chunks[..k + 1]);
      && s == Session(d.requests, d.ctx, s.rest, 1, false)
      && s.rest + Concat(chunks[k + 1..]) == d.rest
  {
    UntilRejectedIsOneMessage(chunks);
    k := FirstRejection(NEW, "", chunks);
    UnrejectedSession(NEW, "", chunks[..k]);
  }

  // ---------- When the cut matters ----------

  /** A cut as the connection sees it: no call comes without bytes. */
  predicate Cut(chunks: seq<Bytes>, s: Bytes) {
    Concat(chunks) == s && forall i :: 0 <= i < |chunks| ==> chunks[i] != ""
  }

  ghost predicate CutsAgree(s: Bytes) {
    forall chunks :: Cut(chunks, s) ==> OnMessages(NEW, "", chunks) == OnMessages(NEW, "", [s])
  }

  /** The stream is rejected before its last byte arrives. */
  ghost predicate RejectedEarly(s: Bytes) {
    exists n: nat :: n < |s| && OnMessage(NEW, s[..n]).rejected
  }

  /** A parser that finds nothing to do: no bytes, or no whole header line. */
  predicate Quiet(ctx: Context, rest: Bytes) {
    rest == "" || (ctx.state == ExpectHeaders && B.FindCrlf(rest).None?)
  }

  lemma {:induction false} Split(ctx: Context, left: Bytes, a: seq<Bytes>, b: seq<Bytes>)
    requires Wf(ctx) && !OnMessages(ctx, left, a).diverged
    ensures var s := OnMessages(ctx, left, a);
      && Wf(s.ctx)
      && var t := OnMessages(s.ctx, s.rest, b);
         OnMessages(ctx, left, a + b)
           == t.(requests := s.requests + t.requests, rejections := s.rejections + t.rejections)
    decreases |a|
  {
    if a == [] {
      assert a + b == b;
      var t := OnMessages(ctx, left, b);
      assert [] + t.requests == t.requests;
    } else {
      assert (a + b)[1..] == a[1..] + b && (a + b)[0] == a[0];
      var buf := left + a[0];
      if ctx.state == GotAll {
        Split(ctx, buf, a[1..], b);
      } else {
        var d := OnMessage(ctx, buf);
        Split(d.ctx, d.rest, a[1..], b);
        var s := OnMessages(d.ctx, d.rest, a[1..]);
        Associate(d.requests, s.requests, OnMessages(s.ctx, s.rest, b).requests);
      }
    }
  }

  lemma QuietMessage(ctx: Context, buf: Bytes, more: Bytes)
    requires Wf(ctx) && ctx.state == ExpectHeaders && B.FindCrlf(buf + more).None?
    ensures OnMessage(ctx, buf) == Delivery([], ctx, buf, false)
  {
    if B.FindCrlf(buf).Some? { B.FindCrlfExtends(buf, more); }
    OnMessageIsDrive(ctx, buf);
  }

  lemma {:induction false} QuietSession(ctx: Context, left: Bytes, chunks: seq<Bytes>)
    requires Wf(ctx) && Quiet(ctx, left + Concat(chunks))
    requires forall i :: 0 <= i < |chunks| ==> chunks[i] != ""
    ensures OnMessages(ctx, left, chunks) == Session([], ctx, left + Concat(chunks), 0, false)
    decreases |chunks|
  {
    if chunks == [] {
      assert left + Concat(chunks) == left;
    } else {
      var buf := left + chunks[0];
      Associate(left, chunks[0], Concat(chunks[1..]));
      QuietMessage(ctx, buf, Concat(chunks[1..]));
      QuietSession(ctx, buf, chunks[1..]);
    }
  }

  /** What a rejection leaves in the buffer: a refused request line stays there. */
  predicate Leftover(ctx: Context, rest: Bytes) {
    && ctx.state != ExpectBody
    && (ctx.state == ExpectRequestLine ==>
          B.FindCrlf(rest).Some? && !ProcessRequestLine(ctx.request, rest[..B.FindCrlf(rest).value]).ok)
  }

  lemma {:induction false} RejectionLeaves(ctx: Context, buf: Bytes)
    requires Wf(ctx) && ctx.state != GotAll && Drive(ctx, buf).rejected
    ensures Leftover(Drive(ctx, buf).ctx, Drive(ctx, buf).rest)
    decreases |buf|
  {
    var t := Iterate(ctx, buf);
    if t.ok { RejectionLeaves(if t.ctx.state == GotAll then NEW else t.ctx, t.rest); }
  }

  lemma {:induction false} DriveShrinks(ctx: Context, buf: Bytes)
    requires Wf(ctx) && ctx.state != GotAll
    ensures |Drive(ctx, buf).rest| <= |buf|
    decreases |buf|
  {
    var t := Iterate(ctx, buf);
    if t.ok && t.ctx.state == GotAll {
      DriveShrinks(NEW, t.rest);
    } else if t.ok && t.more {
      DriveShrinks(t.ctx, t.rest);
    }
  }

  /** From what a rejection leaves, another call rejects again or consumes, unless it is quiet. */
  lemma UnquietMoves(ctx: Context, buf: Bytes)
    requires Wf(ctx) && ctx.state != GotAll && Leftover(ctx, buf) && !Quiet(ctx, buf)
    ensures OnMessage(ctx, buf).rejected || |OnMessage(ctx, buf).rest| < |buf|
  {
    OnMessageIsDrive(ctx, buf);
    var t := Iterate(ctx, buf);
    if t.ok { DriveShrinks(if t.ctx.state == GotAll then NEW else t.ctx, t.rest); }
  }

  lemma LaterChunksCount(chunks: seq<Bytes>)
    requires chunks != [] && forall i :: 0 <= i < |chunks| ==> chunks[i] != ""
    ensures Concat(chunks) != ""
  {
  }

  lemma ConcatSplit(chunks: seq<Bytes>, k: nat)
    requires k <= |chunks|
    ensures Concat(chunks) == Concat(chunks[..k]) + Concat(chunks[k..])
  {
    ConcatAppend(chunks[..k], chunks[k..]);
    SplitJoin(chunks, k);
  }

  /** A call that rejects with chunks still to come rejects early. */
  lemma EarlierCallRejects(chunks: seq<Bytes>, s: Bytes, k: nat)
    requires Cut(chunks, s) && k + 1 < |chunks| && OnMessages(NEW, "", chunks[..k + 1]).rejections == 1
    ensures RejectedEarly(s)
  {
    var a, b := chunks[..k + 1], chunks[k + 1..];
    var p := Concat(a);
    LaterChunksCount(b);
    ConcatSplit(chunks, k + 1);
    AppendPrefix(p, Concat(b));
    if !OnMessage(NEW, p).rejected {
      ChunkingIndependence(a);
      OneChunk(p);
    }
  }

  /** A session that goes on quietly, or not at all, after its first rejection. */
  lemma QuietAfter(a: seq<Bytes>, b: seq<Bytes>, d: Delivery)
    requires var first := OnMessages(NEW, "", a);
      first == Session(d.requests, d.ctx, first.rest, 1, false) && first.rest + Concat(b) == d.rest
    requires b == [] || (Quiet(d.ctx, d.rest) && forall i :: 0 <= i < |b| ==> b[i] != "")
    ensures OnMessages(NEW, "", a + b) == Session(d.requests, d.ctx, d.rest, 1, false)
  {
    var first := OnMessages(NEW, "", a);
    Split(NEW, "", a, b);
    assert first.requests + [] == first.requests;
    if b == [] {
      assert first.rest + Concat(b) == first.rest;
    } else {
      QuietSession(d.ctx, first.rest, b);
    }
  }

  /** A rejection by the last byte only, or one that leaves nothing to do, hides the cut. */
  lemma CutIsHidden(chunks: seq<Bytes>, s: Bytes)
    requires Cut(chunks, s) && OnMessage(NEW, s).rejected
    requires !RejectedEarly(s) || Quiet(OnMessage(NEW, s).ctx, OnMessage(NEW, s).rest)
    ensures OnMessages(NEW, "", chunks) == Whole(OnMessage(NEW, s))
  {
    var k := SameUpToRejection(chunks);
    var a, b := chunks[..k + 1], chunks[k + 1..];
    if !RejectedEarly(s) && b != [] { EarlierCallRejects(chunks, s, k); }
    QuietAfter(a, b, OnMessage(NEW, s));
    SplitJoin(chunks, k + 1);
  }

  // Sessions of one and of two calls.

  lemma OneCall(ctx: Context, left: Bytes, b: Bytes)
    requires Wf(ctx)
    ensures OnMessages(ctx, left, [b]) ==
      if ctx.state != GotAll then Whole(OnMessage(ctx, left + b))
      else Session([], ctx, left + b, 0, left + b != "")
  {
    assert [b][1..] == [];
    if ctx.state != GotAll {
      var d := OnMessage(ctx, left + b);
      assert d.requests + [] == d.requests;
    }
  }

  lemma TwoCalls(a: Bytes, b: Bytes)
    ensures var d := OnMessage(NEW, a); OnMessages(NEW, "", [a, b]) == FirstThen(d, OnMessages(d.ctx, d.rest, [b]))
  {
    assert "" + a == a && [a, b][1..] == [b];
  }

  /** Cutting an early rejection right where it happens shows, unless it leaves nothing to do. */
  lemma CutShows(s: Bytes, n: nat)
    requires n < |s| && OnMessage(NEW, s[..n]).rejected
    requires !Quiet(OnMessage(NEW, s).ctx, OnMessage(NEW, s).rest)
    ensures OnMessage(NEW, s).rejected && Cut([s[..n], s[n..]], s)
    ensures OnMessages(NEW, "", [s[..n], s[n..]]) != Whole(OnMessage(NEW, s))
  {
    var p, tail := s[..n], s[n..];
    SplitJoin(s, n);
    PairIsCut(p, tail);
    RejectedPrefix(p, tail);
    SecondCallShows(p, tail);
  }

  lemma PairIsCut(p: Bytes, tail: Bytes)
    requires p != "" && tail != ""
    ensures Cut([p, tail], p + tail)
  {
    assert [p, tail][1..] == [tail] && [tail][1..] == [];
    assert Concat([tail]) == tail + Concat<char>([]);
  }

  lemma RejectedPrefix(p: Bytes, tail: Bytes)
    requires OnMessage(NEW, p).rejected
    ensures var e := OnMessage(NEW, p); OnMessage(NEW, p + tail) == e.(rest := e.rest + tail)
  {
    FirstMessage(NEW, p, tail);
    OnMessageIsDrive(NEW, p + tail);
  }

  lemma SecondCallShows(p: Bytes, tail: Bytes)
    requires OnMessage(NEW, p).rejected && tail != ""
    requires var d := OnMessage(NEW, p + tail); !Quiet(d.ctx, d.rest)
    ensures OnMessages(NEW, "", [p, tail]) != Whole(OnMessage(NEW, p + tail))
  {
    var d := OnMessage(NEW, p + tail);
    RejectedPrefix(p, tail);
    TwoCalls(p, tail);
    OneCall(d.ctx, OnMessage(NEW, p).rest, tail);
    if d.ctx.state != GotAll {
      OnMessageIsDrive(NEW, p + tail);
      RejectionLeaves(NEW, p + tail);
      UnquietMoves(d.ctx, d.rest);
    }
  }

  lemma HiddenCutsAgree(s: Bytes)
    requires !RejectedEarly(s) || Quiet(OnMessage(NEW, s).ctx, OnMessage(NEW, s).rest)
    ensures CutsAgree(s)
  {
    OneChunk(s);
    forall chunks | Cut(chunks, s) ensures OnMessages(NEW, "", chunks) == OnMessages(NEW, "", [s]) {
      if OnMessage(NEW, s).rejected { CutIsHidden(chunks, s); } else { ChunkingIndependence(chunks); }
    }
  }

  lemma EarlyCutShows(s: Bytes)
    requires RejectedEarly(s) && !Quiet(OnMessage(NEW, s).ctx, OnMessage(NEW, s).rest)
    ensures !CutsAgree(s)
  {
    var n: nat :| n < |s| && OnMessage(NEW, s[..n]).rejected;
    OneChunk(s);
    CutShows(s, n);
  }

  /** Whether every cut of a stream gives what one message gives: exactly when it is not rejected before its last
      byte, or the rejection leaves a parser with nothing to do. */
  lemma CutsAgreeIff(s: Bytes)
    ensures CutsAgree(s) <==> !RejectedEarly(s) || Quiet(OnMessage(NEW, s).ctx, OnMessage(NEW, s).rest)
  {
    if RejectedEarly(s) && !Quiet(OnMessage(NEW, s).ctx, OnMessage(NEW, s).rest) {
      EarlyCutShows(s);
    } else {
      HiddenCutsAgree(s);
    }
  }

  // ---------- Streams that show it ----------

  /** A request without headers, such as GET. */
  predicate Bare(m: Message) {
    WellFormed(m) && m.headers == [] && m.body == ""
  }

  const GET := Message("GET", "/", "", "HTTP/1.1", [], "")

  lemma GetIsBare()
    ensures Bare(GET) && FirstLine(GET) == "GET / HTTP/1.1"
  {
  }

  /** After the request line the bytes behind it are read as headers. */
  lemma AfterRequestLine(m: Message, rest: Bytes)
    requires Bare(m)
    ensures Drive(NEW, FirstLine(m) + "\r\n" + rest) == Drive(Context(ExpectHeaders, RequestOf(m)), rest)
  {
    FirstLineIsOneLine(m);
    RequestLineReads(m);
    LineTurn(NEW, FirstLine(m), rest);
  }

  const BAD: Bytes := "bad\r\n"
  const BLANK_LINE: Bytes := "\r\n"

  lemma BadHeader(r: Request, rest: Bytes)
    ensures Drive(Context(ExpectHeaders, r), BAD + rest) == Delivery([], Context(ExpectHeaders, r), rest, true)
  {
    var buf := "bad" + "\r\n" + rest;
    B.FindCrlfAfter("bad", rest);
    assert buf == BAD + rest && buf[..3] == "bad" && buf[5..] == rest;
    IndexOfNone("bad", ':');
  }

  lemma BlankLineEnds(r: Request)
    requires CONTENT_LENGTH !in r.headers
    ensures OnMessage(Context(ExpectHeaders, r), BLANK_LINE) == Delivery([r], NEW, "", false)
  {
    B.FindCrlfAfter("", "");
    assert "" + "\r\n" + "" == BLANK_LINE;
    OnMessageIsDrive(Context(ExpectHeaders, r), BLANK_LINE);
    assert Drive(NEW, "") == Delivery([], NEW, "", false);
    assert [r] + [] == [r];
  }

  lemma RefusedHeader(m: Message, rest: Bytes)
    requires Bare(m)
    ensures OnMessage(NEW, FirstLine(m) + "\r\n" + (BAD + rest))
         == Delivery([], Context(ExpectHeaders, RequestOf(m)), rest, true)
  {
    AfterRequestLine(m, BAD + rest);
    BadHeader(RequestOf(m), rest);
    OnMessageIsDrive(NEW, FirstLine(m) + "\r\n" + (BAD + rest));
  }

  /** A header line without a colon is refused but consumed, and the parser stays among the headers: in two messages
      the blank line completes the request, in one message it is left over and nothing is delivered. */
  lemma RefusedHeaderThenBlankLine(m: Message)
    requires Bare(m)
    ensures var line := FirstLine(m) + "\r\n" + BAD;
      && OnMessages(NEW, "", [line, BLANK_LINE]) == Session([RequestOf(m)], NEW, "", 1, false)
      && OnMessages(NEW, "", [line + BLANK_LINE])
         == Session([], Context(ExpectHeaders, RequestOf(m)), BLANK_LINE, 1, false)
  {
    var line := FirstLine(m) + "\r\n" + BAD;
    assert BAD + "" == BAD;
    RefusedHeader(m, "");
    Associate(FirstLine(m) + "\r\n", BAD, BLANK_LINE);
    RefusedHeader(m, BLANK_LINE);
    OneChunk(line + BLANK_LINE);
    TwoCalls(line, BLANK_LINE);
    assert "" + BLANK_LINE == BLANK_LINE;
    OneCall(Context(ExpectHeaders, RequestOf(m)), "", BLANK_LINE);
    BlankLineEnds(RequestOf(m));
    assert [] + [RequestOf(m)] == [RequestOf(m)];
  }

  /** For instance with GET: one request in two messages, none in one. */
  lemma CutOfGetShows()
    ensures var line := "GET / HTTP/1.1" + "\r\n" + BAD;
      && OnMessages(NEW, "", [line, BLANK_LINE]).requests == [RequestOf(GET)]
      && OnMessages(NEW, "", [line + BLANK_LINE]).requests == []
  {
    GetIsBare();
    RefusedHeaderThenBlankLine(GET);
  }

  // ---------- A content length that is no number ----------

  /** The parser and the bytes at the last turn of a call. */
  function LastTurn(ctx: Context, buf: Bytes): (Context, Bytes)
    requires Wf(ctx) && ctx.state != GotAll
    decreases |buf|
  {
    var t := Iterate(ctx, buf);
    if t.ok && t.ctx.state == GotAll then LastTurn(NEW, t.rest)
    else if t.ok && t.more then LastTurn(t.ctx, t.rest)
    else (ctx, buf)
  }

  /** The blank line has come and the content length is not a number. */
  predicate BadLength(ctx: Context, buf: Bytes) {
    && ctx.state == ExpectHeaders && B.FindCrlf(buf) == Some(0)
    && CONTENT_LENGTH in ctx.request.headers && D.Stoi(ctx.request.headers[CONTENT_LENGTH]).None?
  }

  lemma {:induction false} LastTurnDecides(ctx: Context, buf: Bytes)
    requires Wf(ctx) && ctx.state != GotAll
    ensures var (c, b) := LastTurn(ctx, buf);
      && Wf(c) && c.state != GotAll
      && Drive(ctx, buf).ctx == Iterate(c, b).ctx && Drive(ctx, buf).rejected == !Iterate(c, b).ok
    decreases |buf|
  {
    var t := Iterate(ctx, buf);
    if t.ok && t.ctx.state == GotAll {
      LastTurnDecides(NEW, t.rest);
    } else if t.ok && t.more {
      LastTurnDecides(t.ctx, t.rest);
    }
  }

  /** A call leaves the state GotAll behind exactly when its last turn ends the headers with a content length that
      is not a number. */
  lemma MessageLeavesGotAllIff(ctx: Context, buf: Bytes)
    requires Wf(ctx) && ctx.state != GotAll
    ensures OnMessage(ctx, buf).ctx.state == GotAll <==> BadLength(LastTurn(ctx, buf).0, LastTurn(ctx, buf).1)
    ensures OnMessage(ctx, buf).ctx.state == GotAll ==> OnMessage(ctx, buf).rejected
  {
    OnMessageIsDrive(ctx, buf);
    LastTurnDecides(ctx, buf);
    var (c, b) := LastTurn(ctx, buf);
    if !Iterate(c, b).ok { RejectionLeavesGotAllIff(c, b); }
  }

  /** After such a call the next one that finds bytes never returns, and after any other call it does. */
  lemma NextMessageDivergesIff(s: Bytes, more: Bytes)
    requires more != ""
    ensures OnMessages(NEW, "", [s, more]).diverged <==> BadLength(LastTurn(NEW, s).0, LastTurn(NEW, s).1)
  {
    var d := OnMessage(NEW, s);
    MessageLeavesGotAllIff(NEW, s);
    TwoCalls(s, more);
    OneCall(d.ctx, d.rest, more);
  }

  const BAD_LENGTH: Bytes := CONTENT_LENGTH + ": x"

  lemma HeaderReads(r: Request, name: Bytes, value: Bytes, trimmed: Bytes)
    requires ':' !in name && ToLower(name) == name && D.TrimLeft(value) == trimmed
    ensures AddHeader(r, name + ":" + value) == Line(r.(headers := r.headers[name := trimmed]), true)
  {
    var line := name + [':'] + value;
    IndexOfAfter(name, ':', value);
    assert line[..|name|] == name && line[|name| + 1..] == value;
  }

  lemma ContentLengthIsPlain()
    ensures ':' !in CONTENT_LENGTH && '\r' !in CONTENT_LENGTH && ToLower(CONTENT_LENGTH) == CONTENT_LENGTH
  {
  }

  lemma NotANumber()
    ensures D.TrimLeft(" x") == "x" && D.Stoi("x").None?
  {
    assert " x"[1..] == "x";
    assert D.TrimLeft("x") == "x";
  }

  lemma BadLengthHeader(r: Request)
    ensures AddHeader(r, BAD_LENGTH) == Line(r.(headers := r.headers[CONTENT_LENGTH := "x"]), true)
    ensures '\r' !in BAD_LENGTH
  {
    ContentLengthIsPlain();
    NotANumber();
    HeaderReads(r, CONTENT_LENGTH, " x", "x");
    assert BAD_LENGTH == CONTENT_LENGTH + ":" + " x";
  }

  /** A header line that sets a bad length, and the blank line behind it. */
  lemma BadLengthIsRefused(r: Request, h: Request, line: Bytes)
    requires AddHeader(r, line) == Line(h, true) && line != "" && '\r' !in line
    requires CONTENT_LENGTH in h.headers && D.Stoi(h.headers[CONTENT_LENGTH]).None?
    ensures Drive(Context(ExpectHeaders, r), line + "\r\n" + BLANK_LINE) == Delivery([], Context(GotAll, h), "", true)
  {
    LineTurn(Context(ExpectHeaders, r), line, BLANK_LINE);
    B.FindCrlfAfter("", "");
    assert "" + "\r\n" + "" == BLANK_LINE;
  }

  lemma BadLengthTurns(r: Request)
    ensures var c := Context(GotAll, r.(headers := r.headers[CONTENT_LENGTH := "x"]));
      Drive(Context(ExpectHeaders, r), BAD_LENGTH + "\r\n" + BLANK_LINE) == Delivery([], c, "", true)
  {
    BadLengthHeader(r);
    NotANumber();
    BadLengthIsRefused(r, r.(headers := r.headers[CONTENT_LENGTH := "x"]), BAD_LENGTH);
  }

  /** A request with such a header is rejected and leaves GotAll; one more byte, and the call never returns. */
  lemma BadLengthNeverReturns(m: Message, more: Bytes)
    requires Bare(m) && more != ""
    ensures var s := FirstLine(m) + "\r\n" + (BAD_LENGTH + "\r\n" + BLANK_LINE);
      && OnMessage(NEW, s).rejected && OnMessage(NEW, s).ctx.state == GotAll && OnMessage(NEW, s).rest == ""
      && OnMessages(NEW, "", [s, more]).diverged
  {
    var tail := BAD_LENGTH + "\r\n" + BLANK_LINE;
    var s := FirstLine(m) + "\r\n" + tail;
    AfterRequestLine(m, tail);
    BadLengthTurns(RequestOf(m));
    OnMessageIsDrive(NEW, s);
    TwoCalls(s, more);
    OneCall(OnMessage(NEW, s).ctx, "", more);
  }

  lemma GetWithBadLength(more: Bytes)
    requires more != ""
    ensures var s := "GET / HTTP/1.1" + "\r\n" + (BAD_LENGTH + "\r\n" + BLANK_LINE);
      OnMessage(NEW, s).rejected && OnMessages(NEW, "", [s, more]).diverged
  {
    GetIsBare();
    BadLengthNeverReturns(GET, more);
  }
}
