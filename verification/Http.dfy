/** The incremental HTTP/1.1 request parser (src/http/HttpContext.cpp, src/http/HttpCodec.cpp). */
module HttpSpec {
  import opened Prelude
  import D = Decimal
  import B = BufferSpec

  datatype State = ExpectRequestLine | ExpectHeaders | ExpectBody | GotAll

  datatype Request = Request(method_: Bytes, path: Bytes, query: Bytes, version: Bytes,
                             headers: map<Bytes, Bytes>, body: Bytes)

  const BLANK := Request("", "", "", "", map[], "")

  datatype Context = Context(state: State, request: Request)

  const NEW := Context(ExpectRequestLine, BLANK)

  const CONTENT_LENGTH: Bytes := "content-length"

  /** std::find: the index of the first c, or the length. */
  function IndexOf(s: Bytes, c: char): (k: nat)
    ensures k <= |s| && c !in s[..k]
    ensures k < |s| ==> s[k] == c
  {
    if s == "" || s[0] == c then 0
    else
      var k := IndexOf(s[1..], c);
      assert s[..k + 1] == [s[0]] + s[1..][..k];
      k + 1
  }

  lemma {:induction false} IndexOfAfter(a: Bytes, c: char, rest: Bytes)
    requires c !in a
    ensures IndexOf(a + [c] + rest, c) == |a|
    decreases a
  {
    var s := a + [c] + rest;
    if a != "" {
      assert s[1..] == a[1..] + [c] + rest;
      IndexOfAfter(a[1..], c, rest);
    }
  }

  lemma IndexOfNone(a: Bytes, c: char)
    requires c !in a
    ensures IndexOf(a, c) == |a|
  {
  }

  // ---------- One turn of the loop in ParseRequest ----------

  datatype Line = Line(request: Request, ok: bool)

  /** ProcessRequestLine: method, target and version, split at the first two blanks. */
  function ProcessRequestLine(r: Request, line: Bytes): Line {
    var s1 := IndexOf(line, ' ');
    if s1 == |line| then Line(r, false)
    else AfterMethod(r.(method_ := line[..s1]), line[s1 + 1..])
  }

  /** What follows the first blank. */
  function AfterMethod(r: Request, rest: Bytes): Line {
    var s2 := IndexOf(rest, ' ');
    if s2 == |rest| then Line(r, false)
    else Line(ReadTarget(r, rest[..s2]).(version := rest[s2 + 1..]), true)
  }

  /** The path, and the query behind the first question mark. */
  function ReadTarget(r: Request, target: Bytes): Request {
    var q := IndexOf(target, '?');
    if q < |target| then r.(path := target[..q], query := target[q + 1..]) else r.(path := target)
  }

  function AddHeader(r: Request, line: Bytes): Line {
    var colon := IndexOf(line, ':');
    if colon == |line| then Line(r, false)
    else Line(r.(headers := r.headers[ToLower(line[..colon]) := D.TrimLeft(line[colon + 1..])]), true)
  }

  /** Where a turn leaves the parser: more is hasMore. */
  datatype Turn = Turn(ctx: Context, rest: Bytes, more: bool, ok: bool)

  /** A parser that expects a body has a content length that stoi reads as positive. */
  predicate Wf(ctx: Context) {
    ctx.state == ExpectBody ==>
      && CONTENT_LENGTH in ctx.request.headers
      && D.Stoi(ctx.request.headers[CONTENT_LENGTH]).Some?
      && D.Stoi(ctx.request.headers[CONTENT_LENGTH]).value > 0
  }

  /** The blank line that ends the headers. A length that is not a number fails, but leaves GotAll behind. */
  function EndHeaders(ctx: Context, rest: Bytes): Turn {
    if CONTENT_LENGTH in ctx.request.headers then
      match D.Stoi(ctx.request.headers[CONTENT_LENGTH])
      case None => Turn(ctx.(state := GotAll), rest, false, false)
      case Some(n) =>
        if n > 0 then Turn(ctx.(state := ExpectBody), rest, true, true)
        else Turn(ctx.(state := GotAll), rest, false, true)
    else Turn(ctx.(state := GotAll), rest, false, true)
  }

  /** One turn. No branch of the loop handles GotAll: such a turn changes nothing and asks for another. */
  function Iterate(ctx: Context, buf: Bytes): (t: Turn)
    requires Wf(ctx)
    ensures Wf(t.ctx) && |t.rest| <= |buf|
    ensures ctx.state != GotAll && (t.more || (t.ok && t.ctx.state == GotAll)) ==> |t.rest| < |buf|
    ensures ctx.state != GotAll && t.more ==> t.ok && t.ctx.state != GotAll
  {
    match ctx.state
    case ExpectRequestLine =>
      (match B.FindCrlf(buf)
       case None => Turn(ctx, buf, false, true)
       case Some(k) =>
         var l := ProcessRequestLine(ctx.request, buf[..k]);
         if l.ok then Turn(Context(ExpectHeaders, l.request), buf[k + 2..], true, true)
         else Turn(ctx.(request := l.request), buf, false, false))
    case ExpectHeaders =>
      (match B.FindCrlf(buf)
       case None => Turn(ctx, buf, false, true)
       case Some(k) =>
         if k == 0 then EndHeaders(ctx, buf[2..])
         else
           var l := AddHeader(ctx.request, buf[..k]);
           Turn(ctx.(request := l.request), buf[k + 2..], l.ok, l.ok))
    case ExpectBody =>
      var n := D.Stoi(ctx.request.headers[CONTENT_LENGTH]).value;
      if |buf| >= n then
        Turn(Context(GotAll, ctx.request.(body := buf[..n])), buf[n..], false, true)
      else Turn(ctx, buf, false, true)
    case GotAll => Turn(ctx, buf, true, true)
  }

  // ---------- ParseRequest and OnMessage ----------

  datatype Parsed = Parsed(ctx: Context, rest: Bytes, ok: bool)

  function ParseRequest(ctx: Context, buf: Bytes): (p: Parsed)
    requires Wf(ctx) && ctx.state != GotAll
    ensures Wf(p.ctx) && |p.rest| <= |buf|
    ensures p.ok && p.ctx.state == GotAll ==> |p.rest| < |buf|
    decreases |buf|
  {
    var t := Iterate(ctx, buf);
    if t.more then ParseRequest(t.ctx, t.rest) else Parsed(t.ctx, t.rest, t.ok)
  }

  /** The requests handed to the callback, where the parser stands, what is left in the buffer,
      and whether the input was rejected (400, then Shutdown). */
  datatype Delivery = Delivery(requests: seq<Request>, ctx: Context, rest: Bytes, rejected: bool)

  function Before(rs: seq<Request>, d: Delivery): Delivery {
    d.(requests := rs + d.requests)
  }

  function OnMessage(ctx: Context, buf: Bytes): (d: Delivery)
    requires Wf(ctx) && ctx.state != GotAll
    ensures Wf(d.ctx) && (!d.rejected ==> d.ctx.state != GotAll)
    decreases |buf|
  {
    if buf == "" then Delivery([], ctx, buf, false)
    else
      var p := ParseRequest(ctx, buf);
      if !p.ok then Delivery([], p.ctx, p.rest, true)
      else if p.ctx.state == GotAll then Before([p.ctx.request], OnMessage(NEW, p.rest))
      else Delivery([], p.ctx, p.rest, false)
  }

  /** What a connection has delivered: the requests, where the parser stands, the bytes left in the buffer, how many
      calls were rejected, and whether the last call never returned. */
  datatype Session = Session(requests: seq<Request>, ctx: Context, rest: Bytes, rejections: nat, diverged: bool)

  /** A stream that arrives in chunks, one call of OnMessage each. A rejection answers 400 and shuts the write side;
      reading goes on, so later chunks are parsed from whatever the rejection left. In the state GotAll the
      loop of ParseRequest never ends, and nothing is read any more. */
  function OnMessages(ctx: Context, left: Bytes, chunks: seq<Bytes>): Session
    requires Wf(ctx)
    decreases |chunks|
  {
    if chunks == [] then Session([], ctx, left, 0, false)
    else
      var buf := left + chunks[0];
      if ctx.state == GotAll && buf != "" then Session([], ctx, buf, 0, true)
      else if ctx.state == GotAll then OnMessages(ctx, buf, chunks[1..])
      else
        var d := OnMessage(ctx, buf);
        FirstThen(d, OnMessages(d.ctx, d.rest, chunks[1..]))
  }

  /** One call, then the rest of the session. */
  function FirstThen(d: Delivery, later: Session): Session {
    later.(requests := d.requests + later.requests, rejections := later.rejections + if d.rejected then 1 else 0)
  }
}

/** Parsing does not depend on how the stream was cut, and reads back what was written. */
module HttpTheorems {
  import opened Prelude
  import D = Decimal
  import B = BufferSpec
  import opened HttpSpec

  /** The same turns in one flat loop: a finished request is delivered and the parser reset. */
  function Drive(ctx: Context, buf: Bytes): (d: Delivery)
    requires Wf(ctx) && ctx.state != GotAll
    ensures Wf(d.ctx) && (!d.rejected ==> d.ctx.state != GotAll)
    decreases |buf|
  {
    var t := Iterate(ctx, buf);
    if !t.ok then Delivery([], t.ctx, t.rest, true)
    else if t.ctx.state == GotAll then Before([t.ctx.request], Drive(NEW, t.rest))
    else if t.more then Drive(t.ctx, t.rest)
    else Delivery([], t.ctx, t.rest, false)
  }

  lemma {:induction false} DriveParses(ctx: Context, buf: Bytes)
    requires Wf(ctx) && ctx.state != GotAll
    ensures var p := ParseRequest(ctx, buf);
      Drive(ctx, buf)
        == if !p.ok then Delivery([], p.ctx, p.rest, true)
           else if p.ctx.state == GotAll then Before([p.ctx.request], Drive(NEW, p.rest))
           else Delivery([], p.ctx, p.rest, false)
    decreases |buf|
  {
    var t := Iterate(ctx, buf);
    if t.more { DriveParses(t.ctx, t.rest); }
  }

  lemma {:induction false} OnMessageIsDrive(ctx: Context, buf: Bytes)
    requires Wf(ctx) && ctx.state != GotAll
    ensures OnMessage(ctx, buf) == Drive(ctx, buf)
    decreases |buf|
  {
    DriveParses(ctx, buf);
    if buf != "" {
      var p := ParseRequest(ctx, buf);
      if p.ok && p.ctx.state == GotAll { OnMessageIsDrive(NEW, p.rest); }
    }
  }

  // ---------- Bytes that arrive later ----------

  predicate Waits(t: Turn) {
    t.ok && !t.more && t.ctx.state != GotAll
  }

  lemma BodyExtends(ctx: Context, buf: Bytes, more: Bytes)
    requires Wf(ctx) && ctx.state == ExpectBody
    ensures var t := Iterate(ctx, buf);
      if Waits(t) then t.ctx == ctx && t.rest == buf
      else Iterate(ctx, buf + more) == t.(rest := t.rest + more)
  {
    var n := D.Stoi(ctx.request.headers[CONTENT_LENGTH]).value;
    if |buf| >= n {
      assert (buf + more)[..n] == buf[..n] && (buf + more)[n..] == buf[n..] + more;
    }
  }

  /** A turn either consumes nothing and waits, or does the same with more bytes behind. */
  lemma IterateExtends(ctx: Context, buf: Bytes, more: Bytes)
    requires Wf(ctx) && ctx.state != GotAll
    ensures var t := Iterate(ctx, buf);
      if Waits(t) then t.ctx == ctx && t.rest == buf
      else Iterate(ctx, buf + more) == t.(rest := t.rest + more)
  {
    if ctx.state == ExpectBody {
      BodyExtends(ctx, buf, more);
    } else if B.FindCrlf(buf).Some? {
      var k := B.FindCrlf(buf).value;
      B.FindCrlfExtends(buf, more);
      assert (buf + more)[..k] == buf[..k] && (buf + more)[k + 2..] == buf[k + 2..] + more;
    }
  }

  lemma BeforeBefore(a: seq<Request>, b: seq<Request>, d: Delivery)
    ensures Before(a, Before(b, d)) == Before(a + b, d)
  {
    assert a + (b + d.requests) == a + b + d.requests;
  }

  lemma BeforeNone(d: Delivery)
    ensures Before([], d) == d
  {
    assert [] + d.requests == d.requests;
  }

  predicate Stalled(ctx: Context, left: Bytes)
    requires Wf(ctx) && ctx.state != GotAll
  {
    Drive(ctx, left) == Delivery([], ctx, left, false)
  }

  function Then(d: Delivery, tail: Bytes): Delivery
    requires Wf(d.ctx) && (!d.rejected ==> d.ctx.state != GotAll)
  {
    if d.rejected then d.(rest := d.rest + tail) else Before(d.requests, Drive(d.ctx, d.rest + tail))
  }

  lemma {:induction false} DriveExtends(ctx: Context, buf: Bytes, more: Bytes)
    requires Wf(ctx) && ctx.state != GotAll
    ensures Drive(ctx, buf + more) == Then(Drive(ctx, buf), more)
    decreases |buf|
  {
    var t := Iterate(ctx, buf);
    var d := Drive(ctx, buf);
    IterateExtends(ctx, buf, more);
    if Waits(t) {
      BeforeNone(Drive(ctx, buf + more));
    } else if t.ok && t.ctx.state == GotAll {
      DriveExtends(NEW, t.rest, more);
      var e := Drive(NEW, t.rest);
      if !e.rejected { BeforeBefore([t.ctx.request], e.requests, Drive(e.ctx, e.rest + more)); }
    } else if t.ok {
      DriveExtends(t.ctx, t.rest, more);
    }
  }

  /** Where a call stops, another call without new bytes does nothing. */
  lemma {:induction false} DriveStalls(ctx: Context, buf: Bytes)
    requires Wf(ctx) && ctx.state != GotAll
    ensures var d := Drive(ctx, buf); !d.rejected ==> Stalled(d.ctx, d.rest)
    decreases |buf|
  {
    var t := Iterate(ctx, buf);
    IterateExtends(ctx, buf, "");
    if !Waits(t) && t.ok {
      DriveStalls(if t.ctx.state == GotAll then NEW else t.ctx, t.rest);
    }
  }

  lemma FirstMessage(ctx: Context, buf: Bytes, tail: Bytes)
    requires Wf(ctx) && ctx.state != GotAll
    ensures var d := OnMessage(ctx, buf);
      Drive(ctx, buf + tail) == Then(d, tail) && (!d.rejected ==> Stalled(d.ctx, d.rest))
  {
    OnMessageIsDrive(ctx, buf);
    DriveExtends(ctx, buf, tail);
    DriveStalls(ctx, buf);
  }

  /** The same calls, but only up to the first rejection; the bytes behind it are put together. */
  function UntilRejected(ctx: Context, left: Bytes, chunks: seq<Bytes>): Delivery
    requires Wf(ctx) && ctx.state != GotAll
    decreases |chunks|
  {
    if chunks == [] then Delivery([], ctx, left, false)
    else
      var d := OnMessage(ctx, left + chunks[0]);
      if d.rejected then d.(rest := d.rest + Concat(chunks[1..]))
      else Before(d.requests, UntilRejected(d.ctx, d.rest, chunks[1..]))
  }

  lemma {:induction false} ChunksAreDrive(ctx: Context, left: Bytes, chunks: seq<Bytes>)
    requires Wf(ctx) && ctx.state != GotAll && Stalled(ctx, left)
    ensures UntilRejected(ctx, left, chunks) == Drive(ctx, left + Concat(chunks))
    decreases |chunks|
  {
    if chunks == [] {
      assert left + Concat(chunks) == left;
    } else {
      var d := OnMessage(ctx, left + chunks[0]);
      FirstMessage(ctx, left + chunks[0], Concat(chunks[1..]));
      Associate(left, chunks[0], Concat(chunks[1..]));
      if !d.rejected {
        ChunksAreDrive(d.ctx, d.rest, chunks[1..]);
      }
    }
  }

  lemma UntilRejectedIsOneMessage(chunks: seq<Bytes>)
    ensures UntilRejected(NEW, "", chunks) == OnMessage(NEW, Concat(chunks))
  {
    assert Drive(NEW, "") == Delivery([], NEW, "", false);
    ChunksAreDrive(NEW, "", chunks);
    OnMessageIsDrive(NEW, Concat(chunks));
    assert "" + Concat(chunks) == Concat(chunks);
  }

  function Whole(d: Delivery): Session {
    Session(d.requests, d.ctx, d.rest, if d.rejected then 1 else 0, false)
  }

  /** A stream that arrives as one message. */
  lemma OneChunk(s: Bytes)
    ensures OnMessages(NEW, "", [s]) == Whole(OnMessage(NEW, s))
  {
    var d := OnMessage(NEW, s);
    assert "" + s == s && [s][1..] == [];
    assert d.requests + [] == d.requests;
  }

  lemma {:induction false} UnrejectedSession(ctx: Context, left: Bytes, chunks: seq<Bytes>)
    requires Wf(ctx) && ctx.state != GotAll && !UntilRejected(ctx, left, chunks).rejected
    ensures OnMessages(ctx, left, chunks) == Whole(UntilRejected(ctx, left, chunks))
    decreases |chunks|
  {
    if chunks != [] {
      var d := OnMessage(ctx, left + chunks[0]);
      UnrejectedSession(d.ctx, d.rest, chunks[1..]);
    }
  }

  /** Chunking independence: if the stream is not rejected as one message, then however it is cut the requests
      delivered, the parser state, the bytes left and the verdict are those of one message. */
  lemma ChunkingIndependence(chunks: seq<Bytes>)
    requires !OnMessage(NEW, Concat(chunks)).rejected
    ensures OnMessages(NEW, "", chunks) == OnMessages(NEW, "", [Concat(chunks)])
  {
    UntilRejectedIsOneMessage(chunks);
    UnrejectedSession(NEW, "", chunks);
    OneChunk(Concat(chunks));
  }

  /** A rejected turn leaves the state GotAll, which no later call of ParseRequest gets out of,
      exactly when what was rejected is the content length. */
  lemma RejectionLeavesGotAllIff(ctx: Context, buf: Bytes)
    requires Wf(ctx) && ctx.state != GotAll && !Iterate(ctx, buf).ok
    ensures Iterate(ctx, buf).ctx.state == GotAll <==>
      && ctx.state == ExpectHeaders && B.FindCrlf(buf) == Some(0)
      && CONTENT_LENGTH in ctx.request.headers && D.Stoi(ctx.request.headers[CONTENT_LENGTH]).None?
    ensures Iterate(ctx, buf).ctx.state == GotAll ==>
      forall more :: Iterate(Iterate(ctx, buf).ctx, more) == Turn(Iterate(ctx, buf).ctx, more, true, true)
  {
  }

  // ---------- What is rejected ----------

  /** Two separators, one behind the other. */
  ghost predicate TwoBlanks(line: Bytes) {
    exists i, j :: 0 <= i < j < |line| && line[i] == ' ' && line[j] == ' '
  }

  lemma BlankIsFound(s: Bytes, c: char)
    ensures IndexOf(s, c) < |s| <==> c in s
  {
    if IndexOf(s, c) == |s| { assert s[..|s|] == s; }
  }

  /** A request line is accepted exactly when it has two blanks. */
  lemma LineOkIff(r: Request, line: Bytes)
    ensures ProcessRequestLine(r, line).ok <==> TwoBlanks(line)
  {
    var s1 := IndexOf(line, ' ');
    BlankIsFound(line, ' ');
    if s1 < |line| {
      var rest := line[s1 + 1..];
      var s2 := IndexOf(rest, ' ');
      BlankIsFound(rest, ' ');
      if s2 < |rest| { assert line[s1] == ' ' && line[s1 + 1 + s2] == ' '; }
      if TwoBlanks(line) {
        var i, j :| 0 <= i < j < |line| && line[i] == ' ' && line[j] == ' ';
        FirstIsNotLater(line, ' ', i);
        assert rest[j - s1 - 1] == ' ';
      }
    }
  }

  lemma FirstIsNotLater(s: Bytes, c: char, i: nat)
    requires i < |s| && s[i] == c
    ensures IndexOf(s, c) <= i
  {
  }

  /** A header line is accepted exactly when it has a colon. */
  lemma HeaderOkIff(r: Request, line: Bytes)
    ensures AddHeader(r, line).ok <==> ':' in line
  {
    BlankIsFound(line, ':');
  }

  /** The content length that the table holds is not a number. */
  predicate BadLength(r: Request) {
    CONTENT_LENGTH in r.headers && D.Stoi(r.headers[CONTENT_LENGTH]).None?
  }

  /** A turn rejects exactly: a whole request line without two blanks, a whole header line without a colon, or the blank
      line behind a content length that is not a number. */
  lemma TurnRejectsIff(ctx: Context, buf: Bytes)
    requires Wf(ctx)
    ensures !Iterate(ctx, buf).ok <==>
      && B.FindCrlf(buf).Some?
      && var k := B.FindCrlf(buf).value;
         || (ctx.state == ExpectRequestLine && !TwoBlanks(buf[..k]))
         || (ctx.state == ExpectHeaders && (if k == 0 then BadLength(ctx.request) else ':' !in buf[..k]))
  {
    if B.FindCrlf(buf).Some? {
      var k := B.FindCrlf(buf).value;
      LineOkIff(ctx.request, buf[..k]);
      HeaderOkIff(ctx.request, buf[..k]);
    }
  }

  /** The blank line: a body is expected exactly when the content length is positive, and otherwise, zero and
      negative lengths included, the request is finished. */
  lemma BlankLineIff(ctx: Context, rest: Bytes)
    ensures var t := EndHeaders(ctx, rest); var h := ctx.request.headers;
      && (t.ctx.state == ExpectBody <==>
            CONTENT_LENGTH in h && D.Stoi(h[CONTENT_LENGTH]).Some? && D.Stoi(h[CONTENT_LENGTH]).value > 0)
      && (t.ctx.state != ExpectBody ==> t.ctx.state == GotAll)
      && (t.more <==> t.ctx.state == ExpectBody) && t.rest == rest && t.ctx.request == ctx.request
  {
  }

  // ---------- Writing requests ----------

  // A header as it is written: its name in any case, and blanks between the colon and the value.
  datatype Header = Header(name: Bytes, pad: Bytes, value: Bytes)

  datatype Message = Message(method_: Bytes, path: Bytes, query: Bytes, version: Bytes,
                             headers: seq<Header>, body: Bytes)

  function HeaderLines(hs: seq<Header>): Bytes {
    if hs == [] then "" else hs[0].name + ":" + (hs[0].pad + hs[0].value) + "\r\n" + HeaderLines(hs[1..])
  }

  function Target(m: Message): Bytes {
    if m.query == "" then m.path else m.path + "?" + m.query
  }

  function FirstLine(m: Message): Bytes {
    m.method_ + " " + Target(m) + " " + m.version
  }

  function Serialize(m: Message): Bytes {
    FirstLine(m) + "\r\n" + HeaderLines(m.headers) + "\r\n" + m.body
  }

  /** The header table that results from storing the headers in order under their names in lower case. */
  function AddAll(t: map<Bytes, Bytes>, hs: seq<Header>): map<Bytes, Bytes>
    decreases hs
  {
    if hs == [] then t else AddAll(t[ToLower(hs[0].name) := hs[0].value], hs[1..])
  }

  function RequestOf(m: Message): Request {
    Request(m.method_, m.path, m.query, m.version, AddAll(map[], m.headers), m.body)
  }

  predicate Plain(s: Bytes) {
    '\r' !in s && ' ' !in s
  }

  predicate HeaderOk(h: Header) {
    && '\r' !in h.name && ':' !in h.name
    && (forall c :: c in h.pad ==> D.IsSpace(c)) && '\r' !in h.pad
    && '\r' !in h.value && (h.value != "" ==> !D.IsSpace(h.value[0]))
  }

  /** The parts of a request hold no separators. */
  predicate PartsOk(m: Message) {
    && Plain(m.method_) && Plain(m.path) && '?' !in m.path && Plain(m.query) && '\r' !in m.version
    && (forall i :: 0 <= i < |m.headers| ==> HeaderOk(m.headers[i]))
  }

  /** A request that can be written: no separators inside its parts, and a content length, its name in any case,
      exactly as long as the body, which may be missing only when the body is empty. */
  predicate WellFormed(m: Message) {
    && PartsOk(m)
    && var table := AddAll(map[], m.headers);
       if CONTENT_LENGTH in table then D.Stoi(table[CONTENT_LENGTH]) == Some(|m.body|) else m.body == ""
  }

  /** The headers of which no later one differs only in case. */
  predicate IsLast(hs: seq<Header>, i: nat)
    requires i < |hs|
  {
    forall j :: i < j < |hs| ==> ToLower(hs[j].name) != ToLower(hs[i].name)
  }

  /** Of the headers whose names differ only in case the last one is in the table, under its name in lower case; the
      other keys are as they were. */
  lemma {:induction false} TableKeepsHeaders(t: map<Bytes, Bytes>, hs: seq<Header>)
    ensures var u := AddAll(t, hs);
      && (forall i :: 0 <= i < |hs| && IsLast(hs, i) ==>
            ToLower(hs[i].name) in u && u[ToLower(hs[i].name)] == hs[i].value)
      && (forall k :: (forall i :: 0 <= i < |hs| ==> ToLower(hs[i].name) != k) ==>
            (k in u <==> k in t) && (k in t ==> u[k] == t[k]))
    decreases hs
  {
    if hs != [] {
      var rest, v := hs[1..], t[ToLower(hs[0].name) := hs[0].value];
      TableKeepsHeaders(v, rest);
      forall i | 0 <= i < |hs| && IsLast(hs, i)
        ensures ToLower(hs[i].name) in AddAll(t, hs) && AddAll(t, hs)[ToLower(hs[i].name)] == hs[i].value
      {
        if i == 0 {
          LastIsNotBehind(hs);
        } else {
          assert rest[i - 1] == hs[i] && IsLast(rest, i - 1);
        }
      }
      forall k | forall i :: 0 <= i < |hs| ==> ToLower(hs[i].name) != k
        ensures (k in AddAll(t, hs) <==> k in t) && (k in t ==> AddAll(t, hs)[k] == t[k])
      {
        assert forall i :: 0 <= i < |rest| ==> rest[i] == hs[i + 1];
      }
    }
  }

  lemma LastIsNotBehind(hs: seq<Header>)
    requires hs != [] && IsLast(hs, 0)
    ensures forall i :: 0 <= i < |hs[1..]| ==> ToLower(hs[1..][i].name) != ToLower(hs[0].name)
  {
  }

  /** Under any spelling of its name the content length gives the body its length. */
  lemma AnySpellingOfLength(m: Message, i: nat)
    requires PartsOk(m) && i < |m.headers| && IsLast(m.headers, i)
    requires ToLower(m.headers[i].name) == CONTENT_LENGTH && D.Stoi(m.headers[i].value) == Some(|m.body|)
    ensures WellFormed(m)
  {
    TableKeepsHeaders(map[], m.headers);
  }

  /** Two names that differ only in case fill one entry, with the later value. */
  lemma CaseFillsOneEntry(t: map<Bytes, Bytes>, a: Header, b: Header)
    requires ToLower(a.name) == ToLower(b.name)
    ensures AddAll(t, [a, b]) == t[ToLower(b.name) := b.value]
  {
    var u := t[ToLower(a.name) := a.value];
    assert [a, b][1..] == [b] && AddAll(t, [a, b]) == AddAll(u, [b]);
    assert [b][1..] == [] && AddAll(u, [b]) == u[ToLower(b.name) := b.value];
  }

  lemma TargetReads(r: Request, m: Message)
    requires WellFormed(m) && r.query == ""
    ensures ' ' !in Target(m) && '\r' !in Target(m)
    ensures ReadTarget(r, Target(m)) == r.(path := m.path, query := m.query)
  {
    if m.query == "" {
      IndexOfNone(m.path, '?');
    } else {
      SplitAt(m.path, '?', m.query);
    }
  }

  /** The first c of a text that has none before it splits it into what is before and what is behind. */
  lemma SplitAt(a: Bytes, c: char, rest: Bytes)
    requires c !in a
    ensures var s := a + [c] + rest; IndexOf(s, c) == |a| && s[..|a|] == a && s[|a| + 1..] == rest
  {
    IndexOfAfter(a, c, rest);
  }

  lemma AfterMethodReads(r: Request, m: Message)
    requires WellFormed(m) && r.query == ""
    ensures AfterMethod(r, Target(m) + " " + m.version)
      == Line(r.(path := m.path, query := m.query, version := m.version), true)
  {
    TargetReads(r, m);
    SplitAt(Target(m), ' ', m.version);
  }

  lemma RequestLineReads(m: Message)
    requires WellFormed(m)
    ensures ProcessRequestLine(BLANK, FirstLine(m))
      == Line(Request(m.method_, m.path, m.query, m.version, map[], ""), true)
  {
    var rest := Target(m) + " " + m.version;
    SplitAt(m.method_, ' ', rest);
    assert FirstLine(m) == m.method_ + [' '] + rest;
    AfterMethodReads(BLANK.(method_ := m.method_), m);
  }

  /** A complete line at the front of the buffer. */
  lemma LineTurn(ctx: Context, line: Bytes, rest: Bytes)
    requires (ctx.state == ExpectRequestLine || (ctx.state == ExpectHeaders && line != "")) && '\r' !in line
    ensures var l := if ctx.state == ExpectRequestLine then ProcessRequestLine(ctx.request, line)
                     else AddHeader(ctx.request, line);
      l.ok ==> Iterate(ctx, line + "\r\n" + rest) == Turn(Context(ExpectHeaders, l.request), rest, true, true)
  {
    var buf := line + "\r\n" + rest;
    B.FindCrlfAfter(line, rest);
    assert buf[..|line|] == line && buf[|line| + 2..] == rest;
  }

  lemma HeaderReads(r: Request, h: Header)
    requires HeaderOk(h)
    ensures AddHeader(r, h.name + ":" + (h.pad + h.value))
      == Line(r.(headers := r.headers[ToLower(h.name) := h.value]), true)
  {
    SplitAt(h.name, ':', h.pad + h.value);
    D.TrimLeftCuts(h.pad, h.value);
  }

  lemma HeaderTurn(r: Request, h: Header, rest: Bytes)
    requires HeaderOk(h)
    ensures Iterate(Context(ExpectHeaders, r), h.name + ":" + (h.pad + h.value) + "\r\n" + rest)
      == Turn(Context(ExpectHeaders, r.(headers := r.headers[ToLower(h.name) := h.value])), rest, true, true)
  {
    HeaderReads(r, h);
    LineTurn(Context(ExpectHeaders, r), h.name + ":" + (h.pad + h.value), rest);
  }

  lemma {:induction false} HeadersRead(r: Request, hs: seq<Header>, rest: Bytes)
    requires forall i :: 0 <= i < |hs| ==> HeaderOk(hs[i])
    ensures Drive(Context(ExpectHeaders, r), HeaderLines(hs) + rest)
      == Drive(Context(ExpectHeaders, r.(headers := AddAll(r.headers, hs))), rest)
    decreases hs
  {
    if hs == [] {
      assert HeaderLines(hs) + rest == rest;
    } else {
      var h := hs[0];
      var tail := HeaderLines(hs[1..]) + rest;
      Associate(h.name + ":" + (h.pad + h.value) + "\r\n", HeaderLines(hs[1..]), rest);
      HeaderTurn(r, h, tail);
      HeadersRead(r.(headers := r.headers[ToLower(h.name) := h.value]), hs[1..], rest);
    }
  }

  /** The blank line, and the body if there is one. */
  lemma EndReads(r: Request, body: Bytes, rest: Bytes)
    requires r.body == ""
    requires if CONTENT_LENGTH in r.headers then D.Stoi(r.headers[CONTENT_LENGTH]) == Some(|body|) else body == ""
    ensures Drive(Context(ExpectHeaders, r), "\r\n" + body + rest) == Before([r.(body := body)], Drive(NEW, rest))
  {
    var buf := "\r\n" + body + rest;
    B.FindCrlfAfter("", body + rest);
    assert buf == "" + "\r\n" + (body + rest);
    assert buf[2..] == body + rest;
    if body != "" {
      var c := Context(ExpectBody, r);
      assert Iterate(Context(ExpectHeaders, r), buf) == Turn(c, body + rest, true, true);
      assert (body + rest)[..|body|] == body && (body + rest)[|body|..] == rest;
    } else {
      assert body + rest == rest;
    }
  }

  lemma FirstLineIsOneLine(m: Message)
    requires WellFormed(m)
    ensures '\r' !in FirstLine(m)
  {
    TargetReads(BLANK, m);
  }

  /** The first line of a written request. */
  lemma FirstTurn(m: Message, rest: Bytes)
    requires WellFormed(m)
    ensures Iterate(NEW, Serialize(m) + rest)
      == Turn(Context(ExpectHeaders, Request(m.method_, m.path, m.query, m.version, map[], "")),
              HeaderLines(m.headers) + ("\r\n" + m.body + rest), true, true)
  {
    FirstLineIsOneLine(m);
    RequestLineReads(m);
    LineTurn(NEW, FirstLine(m), HeaderLines(m.headers) + ("\r\n" + m.body + rest));
    Regroup(FirstLine(m), "\r\n", HeaderLines(m.headers), "\r\n", m.body, rest);
  }

  lemma MessageReads(m: Message, rest: Bytes)
    requires WellFormed(m)
    ensures Drive(NEW, Serialize(m) + rest) == Before([RequestOf(m)], Drive(NEW, rest))
  {
    var r := Request(m.method_, m.path, m.query, m.version, map[], "");
    var tail := "\r\n" + m.body + rest;
    FirstTurn(m, rest);
    assert Drive(NEW, Serialize(m) + rest) == Drive(Context(ExpectHeaders, r), HeaderLines(m.headers) + tail);
    HeadersRead(r, m.headers, tail);
    EndReads(r.(headers := AddAll(map[], m.headers)), m.body, rest);
  }

  function SerializeAll(ms: seq<Message>): Bytes {
    if ms == [] then "" else Serialize(ms[0]) + SerializeAll(ms[1..])
  }

  function RequestsOf(ms: seq<Message>): seq<Request> {
    if ms == [] then [] else [RequestOf(ms[0])] + RequestsOf(ms[1..])
  }

  lemma {:induction false} MessagesRead(ms: seq<Message>)
    requires forall i :: 0 <= i < |ms| ==> WellFormed(ms[i])
    ensures Drive(NEW, SerializeAll(ms)) == Delivery(RequestsOf(ms), NEW, "", false)
  {
    if ms != [] {
      MessageReads(ms[0], SerializeAll(ms[1..]));
      MessagesRead(ms[1..]);
    }
  }

  /** Pipelined round trip: any well-formed requests, written one after the other and cut into messages in any
      way, are delivered exactly as they were, in order, with nothing left over. */
  lemma PipelinedRoundTrip(ms: seq<Message>, chunks: seq<Bytes>)
    requires forall i :: 0 <= i < |ms| ==> WellFormed(ms[i])
    requires Concat(chunks) == SerializeAll(ms)
    ensures OnMessages(NEW, "", chunks) == Session(RequestsOf(ms), NEW, "", 0, false)
  {
    OnMessageIsDrive(NEW, SerializeAll(ms));
    MessagesRead(ms);
    ChunkingIndependence(chunks);
    OneChunk(Concat(chunks));
  }

  /** The usual decimal text is a content length for every body up to the largest int. */
  lemma DecimalLengthFits(body: Bytes)
    requires |body| <= D.INT_MAX
    ensures D.Stoi(D.Digits(|body|)) == Some(|body|)
    ensures '\r' !in D.Digits(|body|) && !D.IsSpace(D.Digits(|body|)[0])
  {
    D.StoiOfText(|body|);
    var d := D.Digits(|body|);
    assert forall i :: 0 <= i < |d| ==> D.IsDigit(d[i]);
  }
}
