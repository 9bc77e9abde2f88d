/** The receive buffer of a connection: the bytes that have arrived and are not yet consumed. */
module Buffers {
  import opened Options
  import opened Bytes

  class Buffer {
    var bytes: string

    constructor ()
      ensures bytes == ""
    {
      bytes := "";
    }

    method Append(data: string)
      modifies this
      ensures bytes == old(bytes) + data
    {
      bytes := bytes + data;
    }

    method FindCRLF() returns (at: Option<nat>)
      ensures at == FindCrlf(bytes)
    {
      at := FindCrlf(bytes);
    }

    method RetrieveUntil(end: nat)
      requires end <= |bytes|
      modifies this
      ensures bytes == old(bytes)[end..]
    {
      bytes := bytes[end..];
    }
  }
}

/** The resumable request parser. */
module HttpContexts {
  import opened Sequences
  import opened Options
  import opened Bytes
  import opened HttpRequests
  import opened Buffers

  datatype ParseState = ExpectRequestLine | ExpectHeaders | ExpectBody | GotAll

  /** A parser together with the bytes it has not consumed. */
  datatype Parser = Parser(state: ParseState, request: Request, input: string) {
    function Receive(data: string): Parser {
      this.(input := input + data)
    }
  }

  /** What one call returns and leaves behind. */
  datatype Outcome = Outcome(ok: bool, parser: Parser) {
    predicate Done() {
      !ok || parser.state == GotAll
    }
  }

  function WithTarget(r: Request, target: string): Request {
    var question := Find(target, '?', 0);
    if question < |target| then WithQuery(r.(path := target[..question]), target[question..])
    else r.(path := target)
  }

  function VersionNamed(v: string): Option<Version> {
    if v == "HTTP/1.1" then Some(Http11) else if v == "HTTP/1.0" then Some(Http10) else None
  }

  /** Reading one request line into `r`; fields set before a failure stay set. */
  function RequestLine(r: Request, line: string): (bool, Request) {
    var blank := Find(line, ' ', 0);
    if blank == |line| then (false, r) else
    var named := r.(verb := MethodNamed(line[..blank]));
    if named.verb == Invalid then (false, named) else
    var second := Find(line, ' ', blank + 1);
    if second == |line| then (false, named) else
    var aimed := WithTarget(named, line[blank + 1..second]);
    match VersionNamed(line[second + 1..])
    case Some(v) => (true, aimed.(version := v))
    case None => (false, aimed)
  }

  /** One turn of the parser's loop: whether it goes on, whether an error was met, and the new parser. */
  datatype Turn = Turn(more: bool, ok: bool, next: Parser)

  function OneTurn(p: Parser): (t: Turn)
    ensures t.more && CanRun(p) ==> CanRun(t.next) && |t.next.input| < |p.input|
  {
    match p.state
    case ExpectRequestLine =>
      (match FindCrlf(p.input)
       case None => Turn(false, true, p)
       case Some(crlf) =>
         var (ok, r) := RequestLine(p.request, p.input[..crlf]);
         if ok then Turn(true, true, Parser(ExpectHeaders, r, p.input[crlf + 2..]))
         else Turn(false, false, p.(request := r)))
    case ExpectHeaders =>
      (match FindCrlf(p.input)
       case None => Turn(false, true, p)
       case Some(crlf) =>
         var line, rest := p.input[..crlf], p.input[crlf + 2..];
         var colon := Find(line, ':', 0);
         if colon < |line| then Turn(true, true, Parser(ExpectHeaders, WithHeader(p.request, line, colon), rest))
         else Turn(false, true, Parser(GotAll, p.request, rest)))
    case ExpectBody => Turn(true, true, p)
    case GotAll => Turn(true, true, p)
  }

  predicate CanRun(p: Parser) {
    p.state == ExpectRequestLine || p.state == ExpectHeaders
  }

  /** The whole loop. */
  function Run(p: Parser): Outcome
    requires CanRun(p)
    decreases |p.input|
  {
    var t := OneTurn(p);
    if t.more then Run(t.next) else Outcome(t.ok, t.next)
  }

  class HttpContext {
    var state: ParseState
    const request: HttpRequest

    ghost function View(buf: Buffer): Parser
      reads this, request, buf
    {
      Parser(state, request.View(), buf.bytes)
    }

    constructor ()
      ensures state == ExpectRequestLine && fresh(request) && request.View() == FRESH
    {
      state := ExpectRequestLine;
      request := new HttpRequest();
    }

    method ProcessRequestLine(line: string) returns (succeed: bool)
      requires request.verb == Invalid
      modifies request
      ensures (succeed, request.View()) == RequestLine(old(request.View()), line)
    {
      hide Find, WithQuery;
      succeed := false;
      var start := 0;
      var space := Find(line, ' ', start);
      if space < |line| {
        var known := request.SetMethod(line[..space]);
        if known {
          start := space + 1;
          space := Find(line, ' ', start);
          if space < |line| {
            var target := line[start..space];
            var question := Find(target, '?', 0);
            if question < |target| {
              request.SetPath(target[..question]);
              request.SetQuery(target[question..]);
            } else {
              request.SetPath(target);
            }
            var version := line[space + 1..];
            succeed := |version| == 8 && version[..7] == "HTTP/1.";
            if succeed {
              assert version == version[..7] + [version[7]];
              if version[7] == '1' {
                request.SetVersion(Http11);
              } else if version[7] == '0' {
                request.SetVersion(Http10);
              } else {
                succeed := false;
              }
            }
          }
        }
      }
    }

    // In the two other states the source's loop never ends: see HaltsIff.
    method ParseRequest(buf: Buffer) returns (ok: bool)
      requires state == ExpectRequestLine || state == ExpectHeaders
      requires state == ExpectRequestLine ==> request.verb == Invalid
      modifies this, request, buf
      ensures Outcome(ok, View(buf)) == Run(old(View(buf)))
    {
      hide Run, RequestLine, FindCrlfFrom;
      ok := true;
      var hasMore := true;
      while hasMore
        invariant hasMore ==> CanRun(View(buf)) && (state == ExpectRequestLine ==> request.verb == Invalid)
        invariant hasMore ==> ok && Run(View(buf)) == Run(old(View(buf)))
        invariant !hasMore ==> Outcome(ok, View(buf)) == Run(old(View(buf)))
        decreases hasMore, |buf.bytes|
      {
        RunIsOneTurn(View(buf));
        var crlf := buf.FindCRLF();
        if state == ExpectRequestLine {
          if crlf.Some? {
            ok := ProcessRequestLine(buf.bytes[..crlf.value]);
            if ok {
              buf.RetrieveUntil(crlf.value + 2);
              state := ExpectHeaders;
            } else {
              hasMore := false;
            }
          } else {
            hasMore := false;
          }
        } else {
          if crlf.Some? {
            var line := buf.bytes[..crlf.value];
            var colon := Find(line, ':', 0);
            if colon < |line| {
              request.AddHeader(line, colon);
            } else {
              state := GotAll;
              hasMore := false;
            }
            buf.RetrieveUntil(crlf.value + 2);
          } else {
            hasMore := false;
          }
        }
      }
    }

    // The query map survives, because Swap skips it.
    method Reset()
      modifies this, request
      ensures state == ExpectRequestLine
      ensures request.View() == Swapped(old(request.View()))
    {
      state := ExpectRequestLine;
      var dummy := new HttpRequest();
      request.Swap(dummy);
    }
  }

  lemma RunIsOneTurn(p: Parser)
    requires CanRun(p)
    ensures var t := OneTurn(p); Run(p) == if t.more then Run(t.next) else Outcome(t.ok, t.next)
  {
  }

  // ---- Termination ----

  /** The loop, entered with `p`, ends within `n` turns. */
  predicate HaltsWithin(p: Parser, n: nat)
    decreases n
  {
    n > 0 && var t := OneTurn(p); t.more ==> HaltsWithin(t.next, n - 1)
  }

  lemma {:induction false} RunsHalt(p: Parser, n: nat)
    requires CanRun(p) && n > |p.input|
    ensures HaltsWithin(p, n)
    decreases |p.input|
  {
    var t := OneTurn(p);
    if t.more { RunsHalt(t.next, n - 1); }
  }

  lemma {:induction false} SpinsForever(p: Parser, n: nat)
    requires !CanRun(p)
    ensures !HaltsWithin(p, n)
  {
    if n > 0 { SpinsForever(p, n - 1); }
  }

  /** The loop ends exactly when it is entered in one of the two expecting states: a caller that
      does not reset after a complete request would never get control back. */
  lemma HaltsIff(p: Parser)
    ensures (exists n: nat :: HaltsWithin(p, n)) <==> CanRun(p)
  {
    if CanRun(p) {
      RunsHalt(p, |p.input| + 1);
      assert exists n: nat :: HaltsWithin(p, n);
    } else {
      forall n: nat ensures !HaltsWithin(p, n) { SpinsForever(p, n); }
    }
  }

  // ---- Chunking ----

  lemma TurnIsStable(p: Parser, more: string)
    requires CanRun(p)
    ensures var t := OneTurn(p);
            if FindCrlf(p.input).Some? then OneTurn(p.Receive(more)) == Turn(t.more, t.ok, t.next.Receive(more))
            else t == Turn(false, true, p)
  {
    if FindCrlf(p.input).Some? {
      CrlfStable(p.input, more);
      var crlf := FindCrlf(p.input).value;
      assert (p.input + more)[..crlf] == p.input[..crlf];
      assert (p.input + more)[crlf + 2..] == p.input[crlf + 2..] + more;
    }
  }

  /** Bytes that arrive later can be given to the parser later: a call that has stopped for lack
      of input goes on as if they had been there, and a call that is done never looks at them. */
  lemma {:induction false} RunResumes(p: Parser, more: string)
    requires CanRun(p)
    ensures var r := Run(p);
            if r.Done() then Run(p.Receive(more)) == Outcome(r.ok, r.parser.Receive(more))
            else CanRun(r.parser) && Run(p.Receive(more)) == Run(r.parser.Receive(more))
    decreases |p.input|
  {
    TurnIsStable(p, more);
    RunIsOneTurn(p);
    RunIsOneTurn(p.Receive(more));
    var t := OneTurn(p);
    if t.more { RunResumes(t.next, more); }
  }

  /** Appending the chunks one at a time and parsing after each, until a call is done. */
  function Feed(p: Parser, chunks: seq<string>): Outcome
    requires CanRun(p) && chunks != []
    decreases |chunks|
  {
    var r := Run(p.Receive(chunks[0]));
    if |chunks| == 1 then r
    else if r.Done() || !CanRun(r.parser) then Outcome(r.ok, r.parser.Receive(Joined(chunks[1..])))
    else Feed(r.parser, chunks[1..])
  }

  /** Chunking independence: however the bytes are cut, the answer, the state, the request and the
      bytes left over are those of one call on all of them. */
  lemma {:induction false} ChunkingIndependence(p: Parser, chunks: seq<string>)
    requires CanRun(p) && chunks != []
    ensures Feed(p, chunks) == Run(p.Receive(Joined(chunks)))
    decreases |chunks|
  {
    var first := p.Receive(chunks[0]);
    if |chunks| == 1 {
      assert Joined(chunks[1..]) == "";
      assert chunks[0] + "" == chunks[0];
    } else {
      RunResumes(first, Joined(chunks[1..]));
      assert first.Receive(Joined(chunks[1..])) == p.Receive(Joined(chunks)) by {
        Assoc(p.input, chunks[0], Joined(chunks[1..]));
      }
      var r := Run(first);
      if !r.Done() { ChunkingIndependence(r.parser, chunks[1..]); }
    }
  }

  // ---- What a request line is ----

  /** method SP target SP version, with one blank on either side of the target. */
  predicate Shape(line: string, m: string, target: string, v: string) {
    line == m + (" " + (target + (" " + v))) && ' ' !in m && ' ' !in target
  }

  lemma ShapeIsRead(r: Request, line: string, m: string, target: string, v: string)
    requires Shape(line, m, target, v)
    ensures Find(line, ' ', 0) == |m| && line[..|m|] == m
    ensures Find(line, ' ', |m| + 1) == |m| + 1 + |target|
    ensures line[|m| + 1..|m| + 1 + |target|] == target && line[|m| + 1 + |target| + 1..] == v
  {
    FindAcross("", m, " " + (target + (" " + v)), ' ');
    assert "" + m + (" " + (target + (" " + v))) == line;
    var pre := m + " ";
    assert line == pre + target + (" " + v) by {
      Assoc(m, " ", target + (" " + v));
      Assoc(pre, target, " " + v);
    }
    FindAcross(pre, target, " " + v, ' ');
    Middle(pre, target, " " + v);
    assert line[|pre| + |target| + 1..] == v;
  }

  lemma BlankFree(line: string, from: nat)
    requires from <= |line|
    ensures ' ' !in line[from..Find(line, ' ', from)]
  {
    FindFirst(line, ' ', from);
  }

  lemma SplitAt(s: string, i: nat)
    requires i < |s| && s[i] == ' '
    ensures s == s[..i] + (" " + s[i + 1..])
  {
  }

  lemma SplitTwice(s: string, a: nat, b: nat)
    requires a < b < |s| && s[a] == s[b] == ' '
    ensures s == s[..a] + (" " + (s[a + 1..b] + (" " + s[b + 1..])))
  {
    SplitAt(s, a);
    var back := s[a + 1..];
    SplitAt(back, b - a - 1);
    assert back[..b - a - 1] == s[a + 1..b];
    assert back[b - a - 1 + 1..] == s[b + 1..];
  }

  lemma LineHasShape(line: string, a: nat, b: nat)
    requires Find(line, ' ', 0) == a < |line| && Find(line, ' ', a + 1) == b < |line|
    ensures Shape(line, line[..a], line[a + 1..b], line[b + 1..])
  {
    BlankFree(line, 0);
    BlankFree(line, a + 1);
    assert line[a] == line[b] == ' ' by { FindFirst(line, ' ', 0); FindFirst(line, ' ', a + 1); }
    assert line[..a] == line[0..a];
    SplitTwice(line, a, b);
  }

  ghost predicate IsRequestLine(line: string) {
    exists m, target, v :: Shape(line, m, target, v) && MethodNamed(m) != Invalid && VersionNamed(v).Some?
  }

  /** Exactly the lines of the shape above with a known method and version are accepted, and the
      request then holds that method, that version, and path followed by query is the target. */
  lemma RequestLineAccepts(r: Request, line: string)
    ensures RequestLine(r, line).0 <==> IsRequestLine(line)
    ensures forall m, target, v :: Shape(line, m, target, v) && MethodNamed(m) != Invalid && VersionNamed(v).Some? ==>
      var r' := RequestLine(r, line).1;
      r' == WithTarget(r.(verb := MethodNamed(m)), target).(version := VersionNamed(v).value)
  {
    hide RequestLine, Shape, MethodNamed, VersionNamed;
    forall m, target, v | Shape(line, m, target, v) && MethodNamed(m) != Invalid && VersionNamed(v).Some?
      ensures RequestLine(r, line)
           == (true, WithTarget(r.(verb := MethodNamed(m)), target).(version := VersionNamed(v).value))
    {
      ShapeIsAccepted(r, line, m, target, v);
    }
    if RequestLine(r, line).0 { AcceptedHasShape(r, line); }
  }

  /** What a line of that shape is read as: it is accepted exactly with one of five methods and two versions, and gives
      that method and that version. */
  lemma RequestLineReads(r: Request, line: string, m: string, target: string, v: string)
    requires Shape(line, m, target, v)
    ensures var (ok, r') := RequestLine(r, line);
            (ok <==> m in {"GET", "POST", "HEAD", "PUT", "DELETE"} && v in {"HTTP/1.0", "HTTP/1.1"})
            && (ok ==> r'.version == (if v == "HTTP/1.0" then Http10 else Http11)
                       && (m == "GET" ==> r'.verb == Get) && (m == "POST" ==> r'.verb == Post)
                       && (m == "HEAD" ==> r'.verb == Head) && (m == "PUT" ==> r'.verb == Put)
                       && (m == "DELETE" ==> r'.verb == Delete))
            && (!ok ==> r' == if m in {"GET", "POST", "HEAD", "PUT", "DELETE"}
                              then WithTarget(r.(verb := MethodNamed(m)), target) else r.(verb := Invalid))
  {
    hide Find, WithTarget, MethodNamed, VersionNamed;
    ShapeIsRead(r, line, m, target, v);
    NamesAreLiteral(m, v);
    TargetKeepsVerb(r.(verb := MethodNamed(m)), target);
  }

  /** One line in front of the buffer, where a request line is expected: it is consumed exactly if it is
      accepted; a line that is not stays, and the parser with it. */
  lemma RequestTurn(q: Request, line: string, rest: string)
    requires NoCrlf(line)
    ensures var (ok, r) := RequestLine(q, line);
            Run(Parser(ExpectRequestLine, q, line + ("\r\n" + rest)))
            == if ok then Run(Parser(ExpectHeaders, r, rest))
               else Outcome(false, Parser(ExpectRequestLine, r, line + ("\r\n" + rest)))
  {
    hide Run, RequestLine;
    CrlfEndsLineIff(line, rest);
    RunIsOneTurn(Parser(ExpectRequestLine, q, line + ("\r\n" + rest)));
  }

  /** And where a header line is: one without a ':', empty or not, ends the request, and what follows stays in
      the buffer; any other one sets the header before its first ':' to what follows, without white space
      around it. */
  lemma HeaderTurn(q: Request, line: string, rest: string)
    requires NoCrlf(line)
    ensures ':' !in line ==>
              Run(Parser(ExpectHeaders, q, line + ("\r\n" + rest))) == Outcome(true, Parser(GotAll, q, rest))
    ensures forall k, v | line == k + (":" + v) && ':' !in k ::
              Run(Parser(ExpectHeaders, q, line + ("\r\n" + rest)))
              == Run(Parser(ExpectHeaders, q.(headers := q.headers[k := Trim(v)]), rest))
  {
    hide Run, Find, TrimLeft, TrimRight;
    CrlfEndsLineIff(line, rest);
    RunIsOneTurn(Parser(ExpectHeaders, q, line + ("\r\n" + rest)));
    FindFirst(line, ':', 0);
    forall k, v | line == k + (":" + v) && ':' !in k
      ensures Run(Parser(ExpectHeaders, q, line + ("\r\n" + rest)))
           == Run(Parser(ExpectHeaders, q.(headers := q.headers[k := Trim(v)]), rest))
    {
      FindAcross("", k, ":" + v, ':');
      assert "" + k + (":" + v) == line;
      assert line[..|k|] == k && line[|k| + 1..] == v;
    }
  }

  /** A buffer without a complete line is left alone. */
  lemma NoLineWaits(p: Parser)
    requires CanRun(p) && NoCrlf(p.input)
    ensures Run(p) == Outcome(true, p)
  {
    FindCrlfFromFirst(p.input, 0);
  }

  lemma TargetKeepsVerb(r: Request, target: string)
    ensures WithTarget(r, target).verb == r.verb
  {
    hide Find;
  }

  lemma NamesAreLiteral(m: string, v: string)
    ensures MethodNamed(m) != Invalid <==> m in {"GET", "POST", "HEAD", "PUT", "DELETE"}
    ensures MethodNamed("GET") == Get && MethodNamed("POST") == Post && MethodNamed("HEAD") == Head
    ensures MethodNamed("PUT") == Put && MethodNamed("DELETE") == Delete
    ensures VersionNamed(v).Some? <==> v in {"HTTP/1.0", "HTTP/1.1"}
    ensures VersionNamed("HTTP/1.0") == Some(Http10) && VersionNamed("HTTP/1.1") == Some(Http11)
  {
  }

  lemma ShapeIsAccepted(r: Request, line: string, m: string, target: string, v: string)
    requires Shape(line, m, target, v) && MethodNamed(m) != Invalid && VersionNamed(v).Some?
    ensures RequestLine(r, line)
         == (true, WithTarget(r.(verb := MethodNamed(m)), target).(version := VersionNamed(v).value))
  {
    hide Find, MethodNamed, VersionNamed, WithTarget;
    ShapeIsRead(r, line, m, target, v);
  }

  lemma AcceptedHasShape(r: Request, line: string)
    requires RequestLine(r, line).0
    ensures IsRequestLine(line)
  {
    hide Find, MethodNamed, VersionNamed, WithTarget, Shape;
    var a := Find(line, ' ', 0);
    LineHasShape(line, a, Find(line, ' ', a + 1));
  }

  /** A path and a printed list of pairs after it. */
  lemma TargetWithQuery(r: Request, path: string, ps: seq<Pair>)
    requires '?' !in path && forall p <- ps :: Printable(p)
    ensures WithTarget(r, path + ("?" + PrintPairs(ps)))
         == r.(path := path, query := "?" + PrintPairs(ps), querys := r.querys + LastWins(ps))
  {
    hide Find, ReadPairs;
    var query := "?" + PrintPairs(ps);
    var target := path + query;
    FindAcross("", path, query, '?');
    assert "" + path + query == target;
    assert target[..|path|] == path && target[|path|..] == query;
    QueryRoundTripIff(ps);
  }

  /** Nothing of the target is lost: path and query put together are the target again. */
  lemma TargetIsKept(r: Request, target: string)
    requires r.query == ""
    ensures WithTarget(r, target).path + WithTarget(r, target).query == target
    ensures '?' !in WithTarget(r, target).path
  {
    FindFirst(target, '?', 0);
  }
}
