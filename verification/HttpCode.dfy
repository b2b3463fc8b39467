/** HttpContext and HttpCodec as objects over the Buffer class. */
module HttpCode {
  import opened Prelude
  import D = Decimal
  import B = BufferSpec
  import opened BufferCode
  import Spec = HttpSpec

  class HttpContext {
    var state: Spec.State
    var request: Spec.Request

    ghost function View(): Spec.Context
      reads this
    {
      Spec.Context(state, request)
    }

    constructor ()
      ensures View() == Spec.NEW
    {
      state, request := Spec.ExpectRequestLine, Spec.BLANK;
    }

    method Reset()
      modifies this
      ensures View() == Spec.NEW
    {
      state, request := Spec.ExpectRequestLine, Spec.BLANK;
    }

    method ProcessRequestLine(line: Bytes) returns (succeed: bool)
      modifies this`request
      ensures Spec.Line(request, succeed) == Spec.ProcessRequestLine(old(request), line)
    {
      succeed := false;
      var space := Spec.IndexOf(line, ' ');
      if space != |line| {
        request := request.(method_ := line[..space]);
        succeed := AfterMethod(line[space + 1..]);
      }
    }

    /** The target up to the second blank, and the version behind it. */
    method AfterMethod(rest: Bytes) returns (succeed: bool)
      modifies this`request
      ensures Spec.Line(request, succeed) == Spec.AfterMethod(old(request), rest)
    {
      succeed := false;
      var space := Spec.IndexOf(rest, ' ');
      if space != |rest| {
        ReadTarget(rest[..space]);
        request := request.(version := rest[space + 1..]);
        succeed := true;
      }
    }

    /** The path, and the query behind the first question mark. */
    method ReadTarget(target: Bytes)
      modifies this`request
      ensures request == Spec.ReadTarget(old(request), target)
    {
      var question := Spec.IndexOf(target, '?');
      if question != |target| {
        request := request.(path := target[..question]);
        request := request.(query := target[question + 1..]);
      } else {
        request := request.(path := target);
      }
    }

    /** One header line; false when it has no colon. */
    method ProcessHeader(line: Bytes) returns (ok: bool)
      modifies this`request
      ensures Spec.Line(request, ok) == Spec.AddHeader(old(request), line)
    {
      var colon := Spec.IndexOf(line, ':');
      if colon == |line| { return false; }
      var key := ToLower(line[..colon]);
      var v := colon + 1;
      while v < |line| && D.IsSpace(line[v])
        invariant colon < v <= |line|
        invariant D.TrimLeft(line[v..]) == D.TrimLeft(line[colon + 1..])
      {
        assert line[v..][1..] == line[v + 1..];
        v := v + 1;
      }
      request := request.(headers := request.headers[key := line[v..]]);
      return true;
    }

    /** The blank line after the headers: which state follows. */
    method EndHeaders() returns (more: bool, ok: bool)
      modifies this`state
      ensures forall rest :: Spec.Turn(View(), rest, more, ok) == Spec.EndHeaders(old(View()), rest)
    {
      ok, more := true, true;
      if Spec.CONTENT_LENGTH in request.headers {
        var length := D.Stoi(request.headers[Spec.CONTENT_LENGTH]);
        var bodyLen := 0;
        match length {
          case Some(n) => bodyLen := n;
          case None => ok, more := false, false;
        }
        if ok && bodyLen > 0 {
          state := Spec.ExpectBody;
        } else {
          state := Spec.GotAll;
          more := false;
        }
      } else {
        state := Spec.GotAll;
        more := false;
      }
    }

    method LineTurn(buf: Buffer) returns (more: bool, ok: bool)
      requires buf.Valid() && this !in buf.Repr
      requires state == Spec.ExpectRequestLine || state == Spec.ExpectHeaders
      modifies this, buf
      ensures buf.Valid() && buf.Repr == old(buf.Repr)
      ensures Spec.Turn(View(), buf.View().content, more, ok) == Spec.Iterate(old(View()), old(buf.View().content))
    {
      ok, more := true, true;
      ghost var c := buf.View().content;
      var crlf := buf.FindCRLF();
      if crlf.None? { return false, true; }
      var k := crlf.value;
      var line := buf.data[buf.readIndex..buf.readIndex + k];
      assert line == c[..k];
      if state == Spec.ExpectRequestLine {
        ok := RequestLineTurn(buf, k, line);
        more := ok;
      } else if k == 0 {
        buf.RetrieveUntil(2);
        more, ok := EndHeaders();
      } else {
        ok := HeaderTurn(buf, k, line);
        more := ok;
      }
    }

    /** A header line is consumed whether or not it is accepted. */
    method HeaderTurn(buf: Buffer, k: nat, line: Bytes) returns (ok: bool)
      requires buf.Valid() && this !in buf.Repr && k + 2 <= |buf.View().content|
      modifies this`request, buf
      ensures buf.Valid() && buf.Repr == old(buf.Repr)
      ensures Spec.Line(request, ok) == Spec.AddHeader(old(request), line)
      ensures buf.View().content == old(buf.View().content)[k + 2..]
    {
      ok := ProcessHeader(line);
      buf.RetrieveUntil(k + 2);
    }

    /** The request line is consumed only when it is accepted. */
    method RequestLineTurn(buf: Buffer, k: nat, line: Bytes) returns (ok: bool)
      requires buf.Valid() && this !in buf.Repr && k + 2 <= |buf.View().content|
      requires state == Spec.ExpectRequestLine
      modifies this, buf
      ensures buf.Valid() && buf.Repr == old(buf.Repr)
      ensures Spec.Line(request, ok) == Spec.ProcessRequestLine(old(request), line)
      ensures state == if ok then Spec.ExpectHeaders else Spec.ExpectRequestLine
      ensures buf.View().content == if ok then old(buf.View().content)[k + 2..] else old(buf.View().content)
    {
      ghost var c := buf.View().content;
      ok := ProcessRequestLine(line);
      assert buf.Valid() && buf.View().content == c;
      if ok {
        buf.RetrieveUntil(k + 2);
        assert buf.View().content == c[k + 2..];
        state := Spec.ExpectHeaders;
      }
    }

    method BodyTurn(buf: Buffer)
      requires buf.Valid() && this !in buf.Repr
      requires state == Spec.ExpectBody && Spec.Wf(View())
      modifies this, buf
      ensures buf.Valid() && buf.Repr == old(buf.Repr)
      ensures Spec.Turn(View(), buf.View().content, false, true) == Spec.Iterate(old(View()), old(buf.View().content))
    {
      ghost var c := buf.View().content;
      var bodyLen := D.Stoi(request.headers[Spec.CONTENT_LENGTH]).value;
      if buf.writeIndex - buf.readIndex >= bodyLen {
        request := request.(body := buf.data[buf.readIndex..buf.readIndex + bodyLen]);
        assert request.body == c[..bodyLen];
        buf.Retrieve(bodyLen);
        state := Spec.GotAll;
      }
    }

    /** ParseRequest may not be entered in GotAll: its loop has no branch for that state. */
    method ParseRequest(buf: Buffer) returns (ok: bool)
      requires buf.Valid() && this !in buf.Repr && Spec.Wf(View()) && state != Spec.GotAll
      modifies this, buf
      ensures buf.Valid() && buf.Repr == old(buf.Repr)
      ensures Spec.Parsed(View(), buf.View().content, ok) == Spec.ParseRequest(old(View()), old(buf.View().content))
    {
      ok := true;
      var hasMore := true;
      while hasMore && ok
        invariant buf.Valid() && buf.Repr == old(buf.Repr) && Spec.Wf(View())
        invariant hasMore ==> ok && state != Spec.GotAll
        invariant hasMore ==>
          Spec.ParseRequest(View(), buf.View().content) == Spec.ParseRequest(old(View()), old(buf.View().content))
        invariant !hasMore ==>
          Spec.Parsed(View(), buf.View().content, ok) == Spec.ParseRequest(old(View()), old(buf.View().content))
        decreases |buf.View().content|, hasMore
      {
        if state == Spec.ExpectBody {
          BodyTurn(buf);
          hasMore := false;
        } else {
          hasMore, ok := LineTurn(buf);
        }
      }
    }
  }

  class HttpCodec {
    constructor () { }

    /** OnMessage on any parser. In the state that a rejected content length leaves, a call that finds bytes would
        loop in ParseRequest for ever; here it is reported as diverged. */
    method OnMessage(ctx: HttpContext, buf: Buffer)
      returns (requests: seq<Spec.Request>, rejected: bool, diverged: bool)
      requires buf.Valid() && ctx !in buf.Repr && Spec.Wf(ctx.View())
      modifies ctx, buf
      ensures buf.Valid() && buf.Repr == old(buf.Repr)
      ensures diverged <==> old(ctx.state) == Spec.GotAll && old(buf.View().content) != ""
      ensures Spec.Session(requests, ctx.View(), buf.View().content, if rejected then 1 else 0, diverged)
        == Spec.OnMessages(old(ctx.View()), old(buf.View().content), [""])
    {
      ghost var c, s := ctx.View(), buf.View().content;
      assert [""][1..] == [] && s + "" == s;
      requests, rejected, diverged := [], false, false;
      if ctx.state == Spec.GotAll {
        diverged := buf.writeIndex - buf.readIndex > 0;
      } else {
        requests, rejected := Drive(ctx, buf);
        assert requests + [] == requests;
      }
    }

    static lemma BeforeNone(rs: seq<Spec.Request>, ctx: Spec.Context, rest: Bytes, rejected: bool)
      ensures Spec.Before(rs, Spec.Delivery([], ctx, rest, rejected)) == Spec.Delivery(rs, ctx, rest, rejected)
    {
      assert rs + [] == rs;
    }

    static lemma BeforeOne(rs: seq<Spec.Request>, r: Spec.Request, d: Spec.Delivery)
      ensures Spec.Before(rs, Spec.Before([r], d)) == Spec.Before(rs + [r], d)
    {
      Associate(rs, [r], d.requests);
    }

    /** The loop of OnMessage. The requests are those handed to http_callback_; rejected says that 400 was sent and
        Shutdown called. */
    method Drive(ctx: HttpContext, buf: Buffer) returns (requests: seq<Spec.Request>, rejected: bool)
      requires buf.Valid() && ctx !in buf.Repr && Spec.Wf(ctx.View()) && ctx.state != Spec.GotAll
      modifies ctx, buf
      ensures buf.Valid() && buf.Repr == old(buf.Repr)
      ensures Spec.Delivery(requests, ctx.View(), buf.View().content, rejected)
        == Spec.OnMessage(old(ctx.View()), old(buf.View().content))
    {
      requests := [];
      ghost var all := Spec.OnMessage(ctx.View(), buf.View().content);
      while buf.writeIndex - buf.readIndex > 0
        invariant buf.Valid() && buf.Repr == old(buf.Repr)
        invariant Spec.Wf(ctx.View()) && ctx.state != Spec.GotAll
        invariant Spec.Before(requests, Spec.OnMessage(ctx.View(), buf.View().content)) == all
        decreases |buf.View().content|
      {
        ghost var c, s := ctx.View(), buf.View().content;
        var ok := ctx.ParseRequest(buf);
        if !ok {
          BeforeNone(requests, ctx.View(), buf.View().content, true);
          return requests, true;
        }
        if ctx.state != Spec.GotAll {
          BeforeNone(requests, ctx.View(), buf.View().content, false);
          return requests, false;
        }
        BeforeOne(requests, ctx.request, Spec.OnMessage(Spec.NEW, buf.View().content));
        requests := requests + [ctx.request];
        ctx.Reset();
      }
      BeforeNone(requests, ctx.View(), buf.View().content, false);
      return requests, false;
    }
  }
}
