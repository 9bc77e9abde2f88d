/** One connection of the backend: parse, answer, reset, again and again. */
module HttpServers {
  import opened Sequences
  import opened Options
  import opened Bytes
  import opened HttpRequests
  import opened Buffers
  import opened HttpContexts
  import opened HttpResponses
  import opened HeaderRoundTrips

  /** What a connection has come to: its parser, the requests answered so far, and whether it was refused. */
  datatype Session = Session(parser: Parser, handled: seq<Request>, failed: bool)

  const BAD_REQUEST := "HTTP/1.1 400 Bad Request\r\n\r\n"

  /** Between two calls: a parser that can run, and before a request line nothing but the query
      map is left of the request before. */
  predicate Ready(s: Session) {
    !s.failed && CanRun(s.parser)
    && (s.parser.state == ExpectRequestLine ==> s.parser.request == Swapped(s.parser.request))
  }

  function Restart(p: Parser): Parser {
    Parser(ExpectRequestLine, Swapped(p.request), p.input)
  }

  /** One call of onMessage after `data` has arrived. */
  function Message(s: Session, data: string): Session
    requires Ready(s)
  {
    var r := Run(s.parser.Receive(data));
    if !r.ok then s.(parser := r.parser, failed := true)
    else if r.parser.state == GotAll then Session(Restart(r.parser), s.handled + [r.parser.request], false)
    else s.(parser := r.parser)
  }

  predicate AsksToClose(r: Request) {
    var connection := Lookup(r.headers, "Connection");
    connection == "close" || (r.version == Http10 && connection != "Keep-Alive")
  }

  /** The bytes one call sends. */
  ghost function Sends(s: Session, data: string, reply: (Request, bool) -> Response): string
    requires Ready(s)
  {
    var r := Run(s.parser.Receive(data));
    if !r.ok then BAD_REQUEST
    else if r.parser.state == GotAll then Printed(reply(r.parser.request, AsksToClose(r.parser.request)))
    else ""
  }

  /** Whether one call shuts the connection down. */
  predicate Shuts(s: Session, data: string, reply: (Request, bool) -> Response)
    requires Ready(s)
  {
    var r := Run(s.parser.Receive(data));
    !r.ok || (r.parser.state == GotAll && reply(r.parser.request, AsksToClose(r.parser.request)).close)
  }

  class HttpConnection {
    const context: HttpContext
    const input: Buffer
    const output: Buffer
    const reply: (Request, bool) -> Response
    var shutdown: bool
    var failed: bool
    ghost var handled: seq<Request>

    ghost function View(): Session
      reads this, context, context.request, input
    {
      Session(context.View(input), handled, failed)
    }

    ghost predicate Valid()
      reads this, context, context.request, input
    {
      input != output && Ready(View())
    }

    constructor (reply: (Request, bool) -> Response)
      ensures Valid() && View() == Session(Parser(ExpectRequestLine, FRESH, ""), [], false)
      ensures output.bytes == "" && !shutdown && this.reply == reply
      ensures fresh(context) && fresh(context.request) && fresh(input) && fresh(output)
    {
      context := new HttpContext();
      input := new Buffer();
      output := new Buffer();
      this.reply := reply;
      shutdown, failed, handled := false, false, [];
    }

    /** The network library has received `data`, appends it to the input buffer and calls onMessage. */
    method OnMessage(data: string)
      requires Valid()
      modifies this, context, context.request, input, output
      ensures View() == Message(old(View()), data)
      ensures !failed ==> Valid()
      ensures output.bytes == old(output.bytes) + Sends(old(View()), data, reply)
      ensures shutdown <==> old(shutdown) || Shuts(old(View()), data, reply)
    {
      hide Run;
      MessageKeepsReady(View(), data);
      input.Append(data);
      var ok := context.ParseRequest(input);
      if !ok {
        output.Append(BAD_REQUEST);
        shutdown := true;
        failed := true;
      }
      if ok && context.state == GotAll {
        OnRequest();
        handled := handled + [context.request.View()];
        context.Reset();
      }
      assert output.bytes + "" == output.bytes;
    }

    method OnRequest()
      requires input != output
      modifies this`shutdown, output
      ensures var req := context.request.View();
              var response := reply(req, AsksToClose(req));
              output.bytes == old(output.bytes) + Printed(response)
              && (shutdown <==> old(shutdown) || response.close)
    {
      var connection := context.request.GetHeader("Connection");
      var close := connection == "close" || (context.request.version == Http10 && connection != "Keep-Alive");
      var response := new HttpResponse(close);
      var r := context.request;
      response.Fill(reply(Request(r.verb, r.version, r.path, r.query, r.headers, r.querys), close));
      response.AppendToBuffer(output);
      if response.closeConnection {
        shutdown := true;
      }
    }
  }

  // ---- Whole connections ----

  predicate Suffix(s: string, t: string) {
    |s| <= |t| && t[|t| - |s|..] == s
  }

  lemma SuffixTransitive(a: string, b: string, c: string)
    requires Suffix(a, b) && Suffix(b, c)
    ensures Suffix(a, c)
  {
    assert c[|c| - |b|..][|b| - |a|..] == c[|c| - |a|..];
  }

  lemma SuffixAppend(a: string, b: string, more: string)
    requires Suffix(a, b)
    ensures Suffix(a + more, b + more)
  {
    assert (b + more)[|b| - |a|..] == b[|b| - |a|..] + more;
  }

  lemma TurnConsumes(p: Parser)
    requires CanRun(p)
    ensures var t := OneTurn(p);
            Suffix(t.next.input, p.input)
            && (t.more || t.next.state == GotAll ==> |t.next.input| < |p.input|)
            && (!t.more && t.ok && t.next.state != GotAll ==> t.next == p)
            && (t.more ==> t.next.state == ExpectHeaders)
  {
    hide RequestLine, FindCrlfFrom;
  }

  lemma {:induction false} RunConsumes(p: Parser)
    requires CanRun(p)
    ensures var r := Run(p).parser;
            Suffix(r.input, p.input)
            && (r.state == GotAll ==> |r.input| < |p.input|)
            && (Run(p).ok && r.state != GotAll ==> CanRun(r))
            && (Run(p).ok && r.state == ExpectRequestLine ==> r == p)
    decreases |p.input|
  {
    hide OneTurn;
    RunIsOneTurn(p);
    TurnConsumes(p);
    var t := OneTurn(p);
    if t.more {
      RunConsumes(t.next);
      RunLeavesRequestLine(t.next);
      SuffixTransitive(Run(t.next).parser.input, t.next.input, p.input);
    }
  }

  lemma {:induction false} RunLeavesRequestLine(p: Parser)
    requires CanRun(p) && p.state == ExpectHeaders
    ensures Run(p).parser.state != ExpectRequestLine
    decreases |p.input|
  {
    RunIsOneTurn(p);
    if OneTurn(p).more { RunLeavesRequestLine(OneTurn(p).next); }
  }

  /** Every call that is not refused leaves a connection the next call may run on. */
  lemma MessageKeepsReady(s: Session, data: string)
    requires Ready(s)
    ensures !Message(s, data).failed ==> Ready(Message(s, data))
  {
    hide Run;
    RunConsumes(s.parser.Receive(data));
  }

  /** All requests the bytes before a parser hold, decoded as one connection would. */
  function Decode(p: Parser): seq<Request>
    requires CanRun(p)
    decreases |p.input|
  {
    RunConsumes(p);
    var r := Run(p);
    if r.ok && r.parser.state == GotAll then [r.parser.request] + Decode(Restart(r.parser)) else []
  }

  /** The connection after a sequence of arrivals; a refusal ends it. */
  function Play(s: Session, arrivals: seq<string>): Session
    requires Ready(s)
    decreases |arrivals|
  {
    if arrivals == [] then s else
    var s' := Message(s, arrivals[0]);
    MessageKeepsReady(s, arrivals[0]);
    if s'.failed then s' else Play(s', arrivals[1..])
  }

  /** The requests still waiting in the buffer. */
  function Waiting(s: Session): seq<Request>
    requires s.failed || CanRun(s.parser)
  {
    if s.failed then [] else Decode(s.parser)
  }

  lemma DecodeResumes(s: Session, data: string, more: string)
    requires Ready(s)
    ensures var s' := Message(s, data);
            (s'.failed || Ready(s'))
            && s.handled + Decode(s.parser.Receive(data + more))
            == s'.handled + (if s'.failed then [] else Decode(s'.parser.Receive(more)))
  {
    hide Run;
    var p := s.parser.Receive(data);
    var r := Run(p);
    MessageKeepsReady(s, data);
    assert p.Receive(more) == s.parser.Receive(data + more) by { Assoc(s.parser.input, data, more); }
    RunResumes(p, more);
    if r.ok && r.parser.state == GotAll {
      assert Restart(r.parser).Receive(more) == Restart(r.parser.Receive(more));
      assert Decode(p.Receive(more)) == [r.parser.request] + Decode(Restart(r.parser).Receive(more));
    } else if r.ok {
      assert Decode(p.Receive(more)) == Decode(r.parser.Receive(more));
    }
  }

  /** Whole-connection decoding: whatever the arrivals, the requests answered so far followed by
      those that the buffered bytes still hold are exactly the requests of the whole stream, in
      order, and each call answers at most one. */
  lemma {:induction false} ConnectionDecodes(s: Session, arrivals: seq<string>)
    requires Ready(s)
    ensures var e := Play(s, arrivals);
            (e.failed || Ready(e))
            && e.handled + Waiting(e) == s.handled + Decode(s.parser.Receive(Joined(arrivals)))
            && |s.handled| <= |e.handled| <= |s.handled| + |arrivals|
    decreases |arrivals|
  {
    if arrivals == [] {
      assert s.parser.input + "" == s.parser.input;
    } else {
      DecodeResumes(s, arrivals[0], Joined(arrivals[1..]));
      var s' := Message(s, arrivals[0]);
      if !s'.failed { ConnectionDecodes(s', arrivals[1..]); }
    }
  }

  /** The bytes in the buffer are the last of those that arrived: consumed and buffered bytes
      together are the bytes received. */
  lemma {:induction false} BufferIsSuffix(s: Session, arrivals: seq<string>)
    requires Ready(s) && !Play(s, arrivals).failed
    ensures var all, left := s.parser.input + Joined(arrivals), Play(s, arrivals).parser.input;
            Suffix(left, all)
    decreases |arrivals|
  {
    if arrivals == [] {
      assert s.parser.input + "" == s.parser.input;
    } else {
      var s' := Message(s, arrivals[0]);
      var p := s.parser.Receive(arrivals[0]);
      RunConsumes(p);
      MessageKeepsReady(s, arrivals[0]);
      BufferIsSuffix(s', arrivals[1..]);
      var more := Joined(arrivals[1..]);
      Assoc(s.parser.input, arrivals[0], more);
      SuffixAppend(s'.parser.input, p.input, more);
      SuffixTransitive(Play(s', arrivals[1..]).parser.input, s'.parser.input + more, p.input + more);
    }
  }

  // ---- What reset leaves behind ----

  /** `r` as it would be had the connection already collected `m`. */
  function Over(m: map<string, string>, r: Request): Request {
    r.(querys := m + r.querys)
  }

  function OverParser(m: map<string, string>, p: Parser): Parser {
    p.(request := Over(m, p.request))
  }

  lemma CollectedOver(m: map<string, string>, q: string, own: map<string, string>)
    ensures Collected(q, 1, m + own) == m + Collected(q, 1, own)
  {
  }

  lemma RequestLineOver(m: map<string, string>, r: Request, line: string)
    ensures RequestLine(Over(m, r), line) == (RequestLine(r, line).0, Over(m, RequestLine(r, line).1))
  {
    hide Find, WithTarget, MethodNamed, VersionNamed;
    var blank := Find(line, ' ', 0);
    if blank < |line| {
      var second := Find(line, ' ', blank + 1);
      if second < |line| {
        TargetOver(m, r.(verb := MethodNamed(line[..blank])), line[blank + 1..second]);
      }
    }
  }

  lemma TargetOver(m: map<string, string>, r: Request, target: string)
    ensures WithTarget(Over(m, r), target) == Over(m, WithTarget(r, target))
  {
    hide Collected, Find;
    CollectedOver(m, target[Find(target, '?', 0)..], r.querys);
  }

  lemma {:induction false} RunOver(m: map<string, string>, p: Parser)
    requires CanRun(p)
    ensures Run(OverParser(m, p)) == Outcome(Run(p).ok, OverParser(m, Run(p).parser))
    decreases |p.input|
  {
    hide RequestLine, Collected;
    RunIsOneTurn(p);
    RunIsOneTurn(OverParser(m, p));
    if p.state == ExpectRequestLine && FindCrlf(p.input).Some? {
      RequestLineOver(m, p.request, p.input[..FindCrlf(p.input).value]);
    }
    var t := OneTurn(p);
    assert OneTurn(OverParser(m, p)) == Turn(t.more, t.ok, OverParser(m, t.next));
    if t.more { RunOver(m, t.next); }
  }

  /** The requests of a stream when each one starts from a new request object. */
  function DecodeFresh(input: string): seq<Request>
    decreases |input|
  {
    var p := Parser(ExpectRequestLine, FRESH, input);
    RunConsumes(p);
    var r := Run(p);
    if r.ok && r.parser.state == GotAll then [r.parser.request] + DecodeFresh(r.parser.input) else []
  }

  /** `m` and the query maps of `rs`, the later ones overriding. */
  function Merged(m: map<string, string>, rs: seq<Request>): map<string, string>
    decreases |rs|
  {
    if rs == [] then m else Merged(m + rs[0].querys, rs[1..])
  }

  lemma {:induction false} MergedLast(m: map<string, string>, rs: seq<Request>)
    requires rs != []
    ensures Merged(m, rs) == Merged(m, rs[..|rs| - 1]) + rs[|rs| - 1].querys
    decreases |rs|
  {
    if |rs| > 1 {
      MergedLast(m + rs[0].querys, rs[1..]);
      assert rs[1..][..|rs| - 2] == rs[..|rs| - 1][1..];
    }
  }

  /** `kept` is `own` with the query maps merged over `m`. */
  predicate Accumulates(m: map<string, string>, kept: seq<Request>, own: seq<Request>) {
    |kept| == |own| && forall i :: 0 <= i < |kept| ==> kept[i] == own[i].(querys := Merged(m, own[..i + 1]))
  }

  lemma AccumulatesOne(m: map<string, string>, r: Request, kept: seq<Request>, own: seq<Request>)
    requires Accumulates(m + r.querys, kept, own)
    ensures Accumulates(m, [Over(m, r)] + kept, [r] + own)
  {
    var kept', own' := [Over(m, r)] + kept, [r] + own;
    forall i | 0 <= i < |kept'| ensures kept'[i] == own'[i].(querys := Merged(m, own'[..i + 1])) {
      assert own'[..i + 1][1..] == own[..i];
      if i > 0 {
        assert kept'[i] == kept[i - 1] && own'[i] == own[i - 1] && own[..i] == own[..i - 1 + 1];
      }
    }
  }

  lemma DecodeOne(p: Parser)
    requires CanRun(p)
    ensures var r := Run(p);
            Decode(p) == if r.ok && r.parser.state == GotAll then [r.parser.request] + Decode(Restart(r.parser)) else []
  {
  }

  lemma DecodeFreshOne(input: string)
    ensures var r := Run(Parser(ExpectRequestLine, FRESH, input));
            DecodeFresh(input)
            == if r.ok && r.parser.state == GotAll then [r.parser.request] + DecodeFresh(r.parser.input) else []
  {
  }

  /** On a kept-alive connection the i-th request is the one a fresh parser would have read, in
      every field except the query map, which is the last-wins merge of all queries so far. */
  lemma {:induction false} QueriesAccumulate(m: map<string, string>, input: string)
    ensures var kept := Decode(Parser(ExpectRequestLine, FRESH.(querys := m), input));
            var own := DecodeFresh(input);
            |kept| == |own| && forall i :: 0 <= i < |kept| ==> kept[i] == own[i].(querys := Merged(m, own[..i + 1]))
    decreases |input|
  {
    hide Run, OneTurn, Decode, DecodeFresh, Merged;
    var p := Parser(ExpectRequestLine, FRESH, input);
    var p' := Parser(ExpectRequestLine, FRESH.(querys := m), input);
    assert p' == OverParser(m, p) by { assert m + map[] == m; }
    RunOver(m, p);
    RunConsumes(p);
    DecodeOne(p');
    DecodeFreshOne(input);
    var r := Run(p);
    if r.ok && r.parser.state == GotAll {
      var m', rest := m + r.parser.request.querys, r.parser.input;
      var kept' := Decode(Parser(ExpectRequestLine, FRESH.(querys := m'), rest));
      QueriesAccumulate(m', rest);
      assert Restart(OverParser(m, r.parser)) == Parser(ExpectRequestLine, FRESH.(querys := m'), rest);
      AccumulatesOne(m, r.parser.request, kept', DecodeFresh(rest));
    }
  }

  /** The i-th request of a new connection is seen as its sender wrote it exactly when its own
      query names every key that the earlier ones have used. */
  lemma QueryIsOwnIff(input: string, i: nat)
    requires i < |DecodeFresh(input)|
    ensures var kept := Decode(Parser(ExpectRequestLine, FRESH, input));
            var own := DecodeFresh(input);
            |kept| == |own| && (kept[i] == own[i] <==> Merged(map[], own[..i]).Keys <= own[i].querys.Keys)
  {
    hide Decode, DecodeFresh;
    var own := DecodeFresh(input);
    QueriesAccumulate(map[], input);
    assert FRESH.(querys := map[]) == FRESH;
    MergedLast(map[], own[..i + 1]);
    assert own[..i + 1][..i] == own[..i];
    var before, mine := Merged(map[], own[..i]), own[i].querys;
    if before.Keys <= mine.Keys {
      assert before + mine == mine;
    } else {
      var k :| k in before && k !in mine;
      assert k in before + mine;
    }
  }

  /** What one call does: it refuses, ends the connection and takes nothing more; or it answers the one request that is
      complete, and starts over with the bytes behind it; or it says nothing and waits. */
  lemma MessageAnswers(s: Session, data: string, reply: (Request, bool) -> Response)
    requires Ready(s)
    ensures var r, s' := Run(s.parser.Receive(data)), Message(s, data);
            if !r.ok then
              Sends(s, data, reply) == "HTTP/1.1 400 Bad Request\r\n\r\n" && Shuts(s, data, reply) && s'.failed
              && s'.handled == s.handled
            else if r.parser.state == GotAll then
              var q := r.parser.request;
              Sends(s, data, reply) == Printed(reply(q, AsksToClose(q))) && !s'.failed && s'.handled == s.handled + [q]
              && s'.parser.state == ExpectRequestLine && s'.parser.input == r.parser.input
              && s'.parser.request == Request(Invalid, Unknown, "", "", map[], q.querys)
            else
              Sends(s, data, reply) == "" && !Shuts(s, data, reply) && !s'.failed && s'.handled == s.handled
              && s'.parser == r.parser
  {
  }

  // ---- Which answers close ----

  /** Header lines change nothing but the headers. */
  lemma {:induction false} HeadersKeepTheRest(p: Parser)
    requires CanRun(p) && p.state == ExpectHeaders
    ensures Run(p).parser.request == p.request.(headers := Run(p).parser.request.headers)
    decreases |p.input|
  {
    RunIsOneTurn(p);
    if OneTurn(p).more { HeadersKeepTheRest(OneTurn(p).next); }
  }

  /** A complete message, from its first line to the blank one: the connection is shut down, and the answer says so,
      exactly when the message asks for "close", or is an HTTP/1.0 one that does not ask for "Keep-Alive". The handler
      leaves the close flag as it finds it. */
  lemma ClosesExactly(s: Session, line: string, m: string, target: string, v: string, rest: string,
                      reply: (Request, bool) -> Response)
    requires Ready(s) && s.parser.state == ExpectRequestLine && s.parser.input == ""
    requires NoCrlf(line) && Shape(line, m, target, v)
    requires m in {"GET", "POST", "HEAD", "PUT", "DELETE"} && v in {"HTTP/1.0", "HTTP/1.1"}
    requires Run(s.parser.Receive(line + ("\r\n" + rest))).parser.state == GotAll
    requires forall q, close :: reply(q, close).close == close
    ensures var data := line + ("\r\n" + rest);
            var q := Run(s.parser.Receive(data)).parser.request;
            var connection := if "Connection" in q.headers then q.headers["Connection"] else "";
            var closes := connection == "close" || (v == "HTTP/1.0" && connection != "Keep-Alive");
            var r := reply(q, closes);
            (Shuts(s, data, reply) <==> closes) && Sends(s, data, reply) == Printed(r)
            && (closes ==> Sends(s, data, reply) == StatusLine(r) + ("\r\n" + ("Connection: close" + "\r\n"
                             + (SortedLines(r.headers.Keys, r.headers) + ("\r\n" + r.body)))))
            && (!closes ==> Sends(s, data, reply) == StatusLine(r) + ("\r\n" + (Snprintf32("Content-Length: "
                              + (Decimal(|r.body|) + "\r\n")) + ("Connection: Keep-Alive" + "\r\n")
                              + (SortedLines(r.headers.Keys, r.headers) + ("\r\n" + r.body)))))
  {
    hide Run, RequestLine, SortedLines, StatusLine, Snprintf32, Decimal;
    var data := line + ("\r\n" + rest);
    assert "" + data == data;
    FirstLineDecides(s.parser.request, line, rest, m, target, v);
  }

  lemma FirstLineDecides(q: Request, line: string, rest: string, m: string, target: string, v: string)
    requires NoCrlf(line) && Shape(line, m, target, v)
    requires m in {"GET", "POST", "HEAD", "PUT", "DELETE"} && v in {"HTTP/1.0", "HTTP/1.1"}
    ensures var r := Run(Parser(ExpectRequestLine, q, line + ("\r\n" + rest)));
            r.ok && r.parser.request.version == if v == "HTTP/1.0" then Http10 else Http11
  {
    hide Run, RequestLine;
    CrlfEndsLineIff(line, rest);
    RequestLineReads(q, line, m, target, v);
    RunIsOneTurn(Parser(ExpectRequestLine, q, line + ("\r\n" + rest)));
    var p := Parser(ExpectHeaders, RequestLine(q, line).1, rest);
    HeadersKeepTheRest(p);
    HeadersAreAccepted(p);
  }

  lemma {:induction false} HeadersAreAccepted(p: Parser)
    requires CanRun(p) && p.state == ExpectHeaders
    ensures Run(p).ok
    decreases |p.input|
  {
    RunIsOneTurn(p);
    if OneTurn(p).more { HeadersAreAccepted(OneTurn(p).next); }
  }

  // ---- A stream on which it is not ----

  /** A request with nothing after its line. */
  function Bare(line: string, rest: string): string {
    line + ("\r\n" + ("\r\n" + rest))
  }

  lemma BareIsRead(line: string, rest: string)
    requires NoCrlf(line) && RequestLine(FRESH, line).0
    ensures Run(Parser(ExpectRequestLine, FRESH, Bare(line, rest)))
         == Outcome(true, Parser(GotAll, RequestLine(FRESH, line).1, rest))
  {
    hide Run, RequestLine;
    CrlfEndsLineIff(line, "\r\n" + rest);
    RunIsOneTurn(Parser(ExpectRequestLine, FRESH, Bare(line, rest)));
    BlankLineEnds(RequestLine(FRESH, line).1, rest);
  }

  function Asking(k: string, v: string): string {
    "GET" + (" " + ("/?" + PrintPairs([(k, v)]) + (" " + "HTTP/1.1")))
  }

  /** A request for "/" that asks for one thing. */
  lemma AskingIsRead(k: string, v: string)
    requires Printable((k, v)) && ' ' !in k && ' ' !in v
    ensures var (ok, r) := RequestLine(FRESH, Asking(k, v));
            ok && r.querys == map[k := v]
  {
    hide RequestLine, ReadPairs, WithTarget;
    var ps := [(k, v)];
    var target := "/?" + PrintPairs(ps);
    assert ps[1..] == [];
    assert PrintPairs(ps) == k + ("=" + (v + ""));
    assert ' ' !in target;
    ShapeIsAccepted(FRESH, Asking(k, v), "GET", target, "HTTP/1.1");
    assert target == "/" + ("?" + PrintPairs(ps));
    TargetWithQuery(FRESH.(verb := Get), "/", ps);
    assert map[] + LastWins(ps) == map[k := v];
  }

  lemma NoNewlineInAsking(k: string, v: string)
    requires '\n' !in k && '\n' !in v
    ensures NoCrlf(Asking(k, v))
  {
    assert [(k, v)][1..] == [];
    assert PrintPairs([(k, v)]) == k + ("=" + (v + ""));
    assert '\n' !in Asking(k, v);
  }

  /** Two requests on one connection, "a=1" and then "b=2": the second is handled as if it had asked for both. */
  lemma SecondRequestInherits()
    ensures var input := Bare(Asking("a", "1"), Bare(Asking("b", "2"), ""));
            var kept, own := Decode(Parser(ExpectRequestLine, FRESH, input)), DecodeFresh(input);
            |kept| == |own| == 2 && kept[0] == own[0] && kept[1] != own[1]
            && own[1].querys == map["b" := "2"] && kept[1].querys == map["a" := "1", "b" := "2"]
  {
    hide Decode, DecodeFresh, Run, RequestLine, Asking, Bare;
    var second := Bare(Asking("b", "2"), "");
    var input := Bare(Asking("a", "1"), second);
    AskingIsRead("a", "1");
    AskingIsRead("b", "2");
    NoNewlineInAsking("a", "1");
    NoNewlineInAsking("b", "2");
    BareIsRead(Asking("a", "1"), second);
    BareIsRead(Asking("b", "2"), "");
    DecodeFreshOne(input);
    DecodeFreshOne(second);
    DecodesNothing();
    var own := DecodeFresh(input);
    assert own == [RequestLine(FRESH, Asking("a", "1")).1, RequestLine(FRESH, Asking("b", "2")).1];
    QueriesAccumulate(map[], input);
    assert FRESH.(querys := map[]) == FRESH;
    MergedOfTwo(own);
    BothAsked();
  }

  lemma BothAsked()
    ensures map["a" := "1"] + map["b" := "2"] == map["a" := "1", "b" := "2"] != map["b" := "2"]
  {
    var both := map["a" := "1", "b" := "2"];
    assert "a" in both && "a" !in map["b" := "2"];
  }

  lemma DecodesNothing()
    ensures DecodeFresh("") == []
  {
    hide Decode;
    var p := Parser(ExpectRequestLine, FRESH, "");
    assert FindCrlf("") == None;
    RunIsOneTurn(p);
  }

  lemma MergedOfTwo(own: seq<Request>)
    requires |own| == 2
    ensures Merged(map[], own[..0 + 1]) == own[0].querys
    ensures Merged(map[], own[..1 + 1]) == own[0].querys + own[1].querys
  {
    MergedLast(map[], own[..1]);
    MergedLast(map[], own[..2]);
    assert own[..1][..0] == [] && own[..2][..1] == own[..1];
    assert map[] + own[0].querys == own[0].querys;
  }
}
