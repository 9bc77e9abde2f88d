/** Client, proxy, backend and back: what reaches which client, over any run in which many clients come,
    send, wait and go. */
module EndToEnd {
  import opened Sequences
  import opened Options
  import opened Bytes
  import opened HttpRequests
  import opened HttpContexts
  import opened HttpResponses
  import opened HeaderRoundTrips
  import opened HttpServers
  import opened Routing
  import opened Backend
  import opened ConnectionTables
  import Configs
  import EventLoops
  import SocketIo

  /** A request on its way to the backend, with the client connection it came from and the request line it
      was sent with. */
  datatype Flight = Flight(origin: Id, line: string, text: string)

  /** What the backend has sent for such a request: `collected` are the queries its connection had collected
      by then, and `closing` says that it sends nothing more on the connection. */
  datatype Reply = Reply(origin: Id, line: string, collected: map<string, string>, closing: bool, text: string)

  /** What the proxy has sent to a client: a reply, behind those that waited in the buffer. */
  datatype Delivery = Delivery(reply: Reply, target: Id, strangers: seq<Reply>, text: string)

  /** One connection between proxy and backend. Requests are taken, and replies read, in the order in which
      they were sent. */
  datatype Link = Link(
    requests: seq<Flight>,       // on their way to the backend
    session: Session,            // the backend's side
    closed: bool,                // nothing more comes from the backend
    replies: seq<Reply>,         // on their way to the proxy
    read: seq<Reply>,            // all that the proxy has read
    delivered: seq<Delivery>)    // all that it has passed on

  const NEW_LINK := Link([], Session(Parser(ExpectRequestLine, FRESH, ""), [], false), false, [], [], [])

  datatype System = System(tables: Tables, links: map<Id, Link>)

  datatype Act =
    | Arrives(fd: int, peer: string)
    | Signals(fd: int)
    | Takes(worker: Worker)
    | ClientSends(worker: Worker, line: string, fields: seq<string>)
    | ClientLeaves(worker: Worker, data: string)
    | NothingToRead(worker: Worker)
    | BackendAnswers(server: Id, found: Found, updates: bool, body: string)
    | ServerSends(worker: Worker, alive: bool)   // the next reply, alone or together with the end of the connection
    | ServerDies(worker: Worker)

  /** A message without a body and without a NUL, whose fields are header lines other than Client. */
  ghost predicate Plain(line: string, fs: seq<string>) {
    '\n' !in line && (forall f <- fs :: Field(f)) && SocketIo.NulFree(RequestText(line, fs))
  }

  /** The requests the shop answers with their Client header, on a connection that has collected `m`: the
      line holds two blanks, and a purchase names item and amount, itself or by an earlier query. */
  predicate Answered(m: map<string, string>, line: string) {
    Blanks(line) == 2 && Echoes(RequestLine(FRESH.(querys := m), line).1)
  }

  predicate Echoed(r: Reply) {
    Answered(r.collected, r.line)
  }

  predicate IsConnected(t: Tables, id: Id) {
    id in t.conns && t.conns[id].kind.Client? && t.conns[id].fd in t.clientConns
    && t.clientConns[t.conns[id].fd] == id
  }

  predicate IsServing(t: Tables, id: Id) {
    id in t.conns && t.conns[id].kind.Server? && t.conns[id].fd in t.serverConns
    && t.serverConns[t.conns[id].fd] == id
  }

  predicate Works(t: Tables, w: Worker, kind: Kind) {
    w in t.busy && t.busy[w] in t.conns && t.conns[t.busy[w]].kind == kind
  }

  function LinkOf(s: System, id: Id): Link {
    if id in s.links then s.links[id] else NEW_LINK
  }

  /** A reply to `client` may still come over the connection. */
  predicate Expects(l: Link, client: Id) {
    (!l.closed && exists f <- l.requests :: f.origin == client) || exists r <- l.replies :: r.origin == client
  }

  /** The request in a message, as the backend's connection reads it. */
  function ParsedBy(s: Session, text: string): Request
    requires Ready(s)
  {
    Run(s.parser.Receive(text)).parser.request
  }

  /** After a refusal, or an answer to a request that asks for it, the backend sends nothing more. */
  predicate Closes(s: Session, text: string)
    requires Ready(s)
  {
    Message(s, text).failed || AsksToClose(ParsedBy(s, text))
  }

  /** What the backend's connection sends when the message `text` comes; nothing when the handler throws. */
  ghost function ReplyText(s: Session, text: string, found: Found, updates: bool, body: string): Option<string>
    requires Ready(s)
  {
    if !Message(s, text).failed && Throws(ParsedBy(s, text), found, updates) then None
    else Some(Sends(s, text, (r, close) => Answering(r, close, found, updates, body)))
  }

  /** When an act can happen. Every read of a request or reply brings one whole message, and a client stays
      while its reply may still come. */
  ghost predicate CanAct(s: System, a: Act) {
    var t := s.tables;
    match a
    case Arrives(fd, peer) => Enabled(t, Accept(fd, peer)) && Address(peer)
    case Signals(fd) => Enabled(t, Event(fd))
    case Takes(w) => Enabled(t, Take(w))
    case ClientSends(w, line, fs) => Works(t, w, Client) && IsConnected(t, t.busy[w]) && Plain(line, fs)
    case ClientLeaves(w, _) => Works(t, w, Client) && forall id | id in s.links :: !Expects(s.links[id], t.busy[w])
    case NothingToRead(w) => Works(t, w, Server) || (Works(t, w, Client) && IsConnected(t, t.busy[w]))
    case BackendAnswers(id, found, updates, body) =>
      id in s.links && s.links[id].requests != [] && !s.links[id].closed && Ready(s.links[id].session)
      && ReplyText(s.links[id].session, s.links[id].requests[0].text, found, updates, body).Some?
    case ServerSends(w, _) => Works(t, w, Server) && LinkOf(s, t.busy[w]).replies != []
    case ServerDies(w) => Works(t, w, Server)
  }

  /** The replies that wait in the buffer: those after the last echoed one. */
  function Held(read: seq<Reply>): seq<Reply> {
    if read == [] || Echoed(read[|read| - 1]) then [] else Held(read[..|read| - 1]) + [read[|read| - 1]]
  }

  function Texts(rs: seq<Reply>): string {
    if rs == [] then "" else Texts(rs[..|rs| - 1]) + rs[|rs| - 1].text
  }

  /** A client connection is processed when one message has come. */
  function ClientRead(s: System, id: Id, line: string, fs: seq<string>): System
    requires id in s.tables.conns
  {
    var (t, sent) := ProcessConn(s.tables, id, Read(RequestText(line, fs), true));
    if sent.Forward? then
      var l := LinkOf(s, sent.target);
      System(t, s.links[sent.target := l.(requests := l.requests + [Flight(id, line, sent.text)])])
    else
      s.(tables := t)
  }

  /** A server connection is processed when its next reply has come. */
  function ServerRead(s: System, id: Id, alive: bool): System
    requires id in s.tables.conns && LinkOf(s, id).replies != []
  {
    var l := LinkOf(s, id);
    var r := l.replies[0];
    var (t, sent) := ProcessConn(s.tables, id, Read(r.text, alive));
    var passed := if sent.Forward? then [Delivery(r, sent.target, Held(l.read), sent.text)] else [];
    var l' := l.(replies := l.replies[1..], read := l.read + [r], delivered := l.delivered + passed);
    System(t, s.links[id := if alive then l' else Lost(l')])
  }

  /** The connection is gone, with all that was on its way over it. */
  function Lost(l: Link): Link {
    l.(requests := [], replies := [], closed := true)
  }

  /** The backend takes the next request. */
  ghost function AnswerNext(l: Link, found: Found, updates: bool, body: string): Link
    requires l.requests != [] && Ready(l.session)
    requires ReplyText(l.session, l.requests[0].text, found, updates, body).Some?
  {
    var f := l.requests[0];
    var closing := Closes(l.session, f.text);
    var text := ReplyText(l.session, f.text, found, updates, body).value;
    l.(requests := l.requests[1..], session := Message(l.session, f.text), closed := closing,
       replies := l.replies + [Reply(f.origin, f.line, l.session.parser.request.querys, closing, text)])
  }

  /** The worker is done with its connection. */
  function Freed(s: System, w: Worker): System {
    s.(tables := s.tables.(busy := s.tables.busy - {w}))
  }

  ghost function Acted(s: System, a: Act): System
    requires CanAct(s, a)
  {
    var t := s.tables;
    match a
    case Arrives(fd, peer) => s.(tables := Next(t, Accept(fd, peer)).0)
    case Signals(fd) => s.(tables := Next(t, Event(fd)).0)
    case Takes(w) => s.(tables := Next(t, Take(w)).0)
    case ClientSends(w, line, fs) => Freed(ClientRead(s, t.busy[w], line, fs), w)
    case ClientLeaves(w, data) => s.(tables := Next(t, Process(w, Read(data, false))).0)
    case NothingToRead(w) => s.(tables := Next(t, Process(w, Read("", true))).0)
    case BackendAnswers(id, found, updates, body) =>
      s.(links := s.links[id := AnswerNext(s.links[id], found, updates, body)])
    case ServerSends(w, alive) => Freed(ServerRead(s, t.busy[w], alive), w)
    case ServerDies(w) =>
      System(Next(t, Process(w, Read("", false))).0, s.links[t.busy[w] := Lost(LinkOf(s, t.busy[w]))])
  }

  // ---- The invariant ----

  /** A message the proxy has refused stays in the buffer, and everything after it is refused too. */
  predicate Refused(t: Tables, buf: string) {
    Find(buf, '\n', 0) < |buf|
    && match RouteOf(FirstLine(buf), t.forwarding.Keys)
       case None => true
       case Some(route) => route.businessCode !in t.forwarding || t.forwarding[route.businessCode] == []
  }

  ghost predicate ClientFits(t: Tables, id: Id)
    requires id in t.conns
  {
    t.conns[id].kind.Client? ==>
      Address(t.conns[id].peer) && (IsConnected(t, id) ==> t.conns[id].buf == "" || Refused(t, t.conns[id].buf))
  }

  ghost predicate IsForwarded(text: string, line: string, peer: string, keys: set<string>) {
    exists fs :: Plain(line, fs) && RouteOf(FirstLine(RequestText(line, fs)), keys).Some?
                 && text == InsertClient(RequestText(line, fs), peer)
  }

  ghost predicate RequestFits(t: Tables, f: Flight) {
    IsConnected(t, f.origin) && IsForwarded(f.text, f.line, t.conns[f.origin].peer, t.forwarding.Keys)
  }

  ghost predicate ReplyFits(t: Tables, r: Reply) {
    IsConnected(t, r.origin) && r.text != ""
    && if Echoed(r) then Names(r.text, t.conns[r.origin].peer) else StartsNoClient(r.text)
  }

  predicate ReadFits(r: Reply) {
    r.text != "" && (!Echoed(r) ==> StartsNoClient(r.text))
  }

  /** Between two messages the backend's side can take the next one. */
  predicate Rests(s: Session) {
    Ready(s) && s.parser.state == ExpectRequestLine && s.parser.input == ""
  }

  /** What has been passed on, given all that was read: each echoed reply to its sender, behind those that
      were not echoed since the echoed one before. */
  function Deliveries(read: seq<Reply>): seq<Delivery> {
    if read == [] then [] else
    var front, last := read[..|read| - 1], read[|read| - 1];
    Deliveries(front)
    + if Echoed(last) then [Delivery(last, last.origin, Held(front), Texts(Held(front)) + last.text)] else []
  }

  /** Nothing follows a closing reply. */
  predicate ClosingIsLast(rs: seq<Reply>) {
    forall k :: 0 <= k < |rs| - 1 ==> !rs[k].closing
  }

  ghost predicate LinkFits(t: Tables, id: Id, l: Link)
    requires id in t.conns
  {
    && (l.requests != [] || l.replies != [] ==> IsServing(t, id))
    && (!l.closed ==> Rests(l.session) && forall f <- l.requests :: RequestFits(t, f))
    && (forall r <- l.replies :: ReplyFits(t, r))
    && (forall r <- l.read :: ReadFits(r))
    && (!l.closed ==> forall r <- l.read + l.replies :: !r.closing)
    && ClosingIsLast(l.read + l.replies)
    && l.delivered == Deliveries(l.read)
    && t.conns[id].buf == Texts(Held(l.read))
  }

  ghost predicate SystemInv(s: System, wired: map<string, seq<int>>) {
    && Inv(s.tables, wired)
    && (forall id | id in s.tables.conns :: ClientFits(s.tables, id))
    && (forall id | id in s.links :: id in s.tables.conns && s.tables.conns[id].kind.Server?)
    && (forall id | id in s.tables.conns && s.tables.conns[id].kind.Server? :: LinkFits(s.tables, id, LinkOf(s, id)))
  }

  // ---- Text: the echo ----

  lemma SameEchoes(r: Request, r': Request)
    requires r == r'.(headers := r.headers)
    ensures Echoes(r) <==> Echoes(r')
    ensures forall found, updates :: Throws(r, found, updates) <==> Throws(r', found, updates)
  {
    hide Configs.Stoi;
  }

  lemma RefusalNamesNobody()
    ensures StartsNoClient(BAD_REQUEST) && ExtractClient(BAD_REQUEST) == None && BAD_REQUEST != ""
  {
    NamelessIsNone(BAD_REQUEST);
  }

  lemma PrintedNotEmpty(r: Response)
    ensures Printed(r) != ""
  {
    assert |StatusLine(r) + ("\r\n" + HeaderBlock(r))| >= 2;
  }

  /** One call of onMessage on a connection with any earlier queries, for every message that the proxy
      forwards: if the line holds two blanks the message is consumed whole, the request is what its line
      says, with the sender's address as its Client header, and the connection rests again; otherwise
      it is refused. */
  lemma BackendReads(s: Session, line: string, fs: seq<string>, peer: string, keys: set<string>)
    requires Rests(s) && Plain(line, fs) && Address(peer) && RouteOf(FirstLine(RequestText(line, fs)), keys).Some?
    ensures var q, text := s.parser.request, InsertClient(RequestText(line, fs), peer);
            var s', r := Message(s, text), ParsedBy(s, text);
            q == FRESH.(querys := q.querys)
            && (s'.failed <==> Blanks(line) != 2)
            && (!s'.failed ==>
                  Rests(s') && s'.handled == s.handled + [r]
                  && r == RequestLine(q, line).1.(headers := r.headers) && Lookup(r.headers, "Client") == peer
                  && s'.parser.request.querys == r.querys)
  {
    hide Run, RequestLine, RouteOf, InsertClient, RequestText;
    var text := InsertClient(RequestText(line, fs), peer);
    assert "" + text == text;
    ForwardedIsRead(s.parser.request, line, fs, peer, keys);
    MessageKeepsReady(s, text);
  }

  /** The whole way of one message: insert, parse, handle, print, extract. For every message that the proxy
      forwards, on a connection with any earlier queries and whatever the database finds: there is a reply
      unless the amount of an answered purchase is compared and is no number, and then the sender's
      address comes back if and only if the shop answers such a request; otherwise the reply names
      nobody, be it the untouched response or the refusal. */
  lemma ReplyNamesSender(s: Session, line: string, fs: seq<string>, peer: string, keys: set<string>,
                         found: Found, updates: bool, body: string)
    requires Rests(s) && Plain(line, fs) && Address(peer) && RouteOf(FirstLine(RequestText(line, fs)), keys).Some?
    ensures var m, r := s.parser.request.querys, RequestLine(s.parser.request, line).1;
            var reply := ReplyText(s, InsertClient(RequestText(line, fs), peer), found, updates, body);
            (reply == None <==> Answered(m, line) && Decision(r, found, updates) == None)
            && (reply.Some? ==>
                  ExtractClient(reply.value) == (if Answered(m, line) then Some(peer) else None)
                  && reply.value != ""
                  && if Answered(m, line) then Names(reply.value, peer) else StartsNoClient(reply.value))
  {
    hide Run, RequestLine, RouteOf, InsertClient, RequestText, Printed, Answer, ExtractClient, Names, StartsNoClient;
    hide Decision, Echoes, Rests;
    RestsReady(s);
    var text := InsertClient(RequestText(line, fs), peer);
    BackendReads(s, line, fs, peer, keys);
    AddressCarried(peer);
    var r := ParsedBy(s, text);
    if Blanks(line) == 2 {
      SameEchoes(r, RequestLine(s.parser.request, line).1);
      AnsweringNames(r, AsksToClose(r), found, updates, body);
      PrintedNotEmpty(Answering(r, AsksToClose(r), found, updates, body));
      SameDecision(r, RequestLine(s.parser.request, line).1, found, updates);
    } else {
      RefusalNamesNobody();
    }
  }

  lemma RestsReady(s: Session)
    requires Rests(s)
    ensures Ready(s)
  {
  }

  lemma SameDecision(r: Request, r': Request, found: Found, updates: bool)
    requires r == r'.(headers := r.headers)
    ensures Decision(r, found, updates) == Decision(r', found, updates)
  {
    hide Configs.Stoi;
  }

  lemma AnsweringNames(r: Request, close: bool, found: Found, updates: bool, body: string)
    requires var client := Lookup(r.headers, "Client"); client != "" && '\n' !in client
    ensures var client, text := Lookup(r.headers, "Client"), Printed(Answering(r, close, found, updates, body));
            ExtractClient(text) == (if Echoes(r) then Some(client) else None)
            && if Echoes(r) then Names(text, client) else StartsNoClient(text)
  {
    hide Answer, Printed, ExtractClient, Names, StartsNoClient, Echoes, Decision;
    var decision := Decision(r, found, updates);
    var db := if decision.Some? then decision.value else SelectFailed;
    AnswerNames(r, close, db, body);
    AnswerNamesClient(r, close, db, body);
  }

  /** The sender's address comes back whatever the database finds. */
  ghost predicate NamedForEvery(s: Session, text: string, peer: string)
    requires Ready(s)
  {
    forall found, updates, body ::
      var reply := ReplyText(s, text, found, updates, body);
      reply.Some? && ExtractClient(reply.value) == Some(peer)
  }

  /** And that is so if and only if the shop answers such a request and the amount of a purchase is a number. */
  lemma NamedForEveryIff(s: Session, line: string, fs: seq<string>, peer: string, keys: set<string>)
    requires Rests(s) && Plain(line, fs) && Address(peer) && RouteOf(FirstLine(RequestText(line, fs)), keys).Some?
    ensures var r := RequestLine(s.parser.request, line).1;
            NamedForEvery(s, InsertClient(RequestText(line, fs), peer), peer)
            <==> Answered(s.parser.request.querys, line)
                 && (r.path == BUY ==> Configs.Stoi(Lookup(r.querys, "num")).Some?)
  {
    hide RequestLine, RouteOf, InsertClient, RequestText, ExtractClient, Names, StartsNoClient, Answered, ReplyText;
    hide Configs.Stoi, Rests;
    RestsReady(s);
    var text := InsertClient(RequestText(line, fs), peer);
    forall found, updates, body
      ensures var m, r := s.parser.request.querys, RequestLine(s.parser.request, line).1;
              var reply := ReplyText(s, text, found, updates, body);
              (reply == None <==> Answered(m, line) && Decision(r, found, updates) == None)
              && (reply.Some? ==> ExtractClient(reply.value) == (if Answered(m, line) then Some(peer) else None))
    {
      ReplyNamesSender(s, line, fs, peer, keys, found, updates, body);
    }
    var r := RequestLine(s.parser.request, line).1;
    var some := ReplyText(s, text, QueryFailed, true, "");
    var row := ReplyText(s, text, Row(0), true, "");
    assert Decision(r, QueryFailed, true).Some?;
    assert Decision(r, Row(0), true) == None <==> r.path == BUY && Configs.Stoi(Lookup(r.querys, "num")) == None;
  }

  lemma {:induction false} FirstLineStays(buf: string, more: string)
    requires Find(buf, '\n', 0) < |buf|
    ensures Find(buf + more, '\n', 0) == Find(buf, '\n', 0) && FirstLine(buf + more) == FirstLine(buf)
  {
    FindStable(buf, more, '\n', 0);
  }

  lemma RequestTextHasLine(line: string, fs: seq<string>)
    ensures Find(RequestText(line, fs), '\n', 0) < |RequestText(line, fs)|
  {
    var m := RequestText(line, fs);
    FindFirst(m, '\n', 0);
    assert m[|line| + 1] == '\n';
  }

  // ---- Replies that are held ----

  lemma LastRead(read: seq<Reply>, r: Reply)
    ensures Held(read + [r]) == if Echoed(r) then [] else Held(read) + [r]
    ensures Texts(read + [r]) == Texts(read) + r.text
    ensures Deliveries(read + [r])
         == Deliveries(read)
            + if Echoed(r) then [Delivery(r, r.origin, Held(read), Texts(Held(read)) + r.text)] else []
  {
    hide Echoed;
    assert (read + [r])[..|read|] == read;
  }

  lemma {:induction false} HeldNameNobody(read: seq<Reply>)
    requires forall r <- read :: ReadFits(r)
    ensures StartsNoClient(Texts(Held(read)))
    ensures forall r <- Held(read) :: r in read && !Echoed(r)
    decreases |read|
  {
    hide StartsNoClient, Echoed;
    if read == [] || Echoed(read[|read| - 1]) {
      NothingStartsNoClient();
    } else {
      var front, last := read[..|read| - 1], read[|read| - 1];
      assert last in read && ReadFits(last);
      HeldNameNobody(front);
      LastText(Held(front), last);
      StartsNoClientJoins(Texts(Held(front)), last.text);
    }
  }

  lemma LastText(rs: seq<Reply>, r: Reply)
    ensures Texts(rs + [r]) == Texts(rs) + r.text
  {
    assert (rs + [r])[..|rs|] == rs;
  }

  lemma BufferNamesNobody(t: Tables, id: Id, l: Link)
    requires id in t.conns && LinkFits(t, id, l)
    ensures t.conns[id].buf == Texts(Held(l.read)) && StartsNoClient(t.conns[id].buf)
  {
    hide Echoed, StartsNoClient;
    HeldNameNobody(l.read);
  }

  // ---- Tables ----

  /** Connections keep their identity, and lists only shrink. */
  predicate Preserves(t: Tables, t': Tables) {
    && (forall id | id in t.conns :: id in t'.conns && t'.conns[id] == t.conns[id].(buf := t'.conns[id].buf))
    && t'.forwarding.Keys == t.forwarding.Keys
    && (forall loc | loc in t.forwarding && t.forwarding[loc] == [] :: t'.forwarding[loc] == [])
  }

  lemma StillRefused(t: Tables, t': Tables, buf: string, more: string)
    requires Refused(t, buf) && Preserves(t, t')
    ensures Refused(t', buf + more)
  {
    hide RouteOf;
    FirstLineStays(buf, more);
  }

  predicate SameLinks(t: Tables, t': Tables) {
    && (forall id | id in t.conns && IsConnected(t, id) :: IsConnected(t', id))
    && (forall id | id in t.conns && IsServing(t, id) :: IsServing(t', id))
  }

  /** A link stays sound as long as its connection is there and the clients it expects are. */
  lemma LinkStays(t: Tables, t': Tables, id: Id, l: Link)
    requires id in t.conns && LinkFits(t, id, l) && Preserves(t, t') && t'.conns[id].buf == t.conns[id].buf
    requires IsServing(t, id) ==> IsServing(t', id)
    requires forall c | IsConnected(t, c) && Expects(l, c) :: IsConnected(t', c)
    ensures LinkFits(t', id, l)
  {
    hide IsForwarded, Names, StartsNoClient, Echoed, Rests, ReadFits, Deliveries, Held, ClosingIsLast, Texts;
    if !l.closed {
      forall f | f in l.requests ensures RequestFits(t', f) {
        assert RequestFits(t, f);
        assert Expects(l, f.origin);
      }
    }
    forall r | r in l.replies ensures ReplyFits(t', r) {
      assert ReplyFits(t, r);
      assert Expects(l, r.origin);
    }
  }

  /** All links but those in `except` stay sound. */
  lemma LinksStay(s: System, wired: map<string, seq<int>>, t': Tables, except: set<Id>)
    requires SystemInv(s, wired) && Preserves(s.tables, t') && SameLinks(s.tables, t')
    requires forall id | id in s.tables.conns && s.tables.conns[id].kind.Server? && id !in except ::
               t'.conns[id].buf == s.tables.conns[id].buf
    ensures forall id | id in s.tables.conns && s.tables.conns[id].kind.Server? && id !in except ::
              LinkFits(t', id, LinkOf(s, id))
  {
    hide Inv, LinkFits, ClientFits;
    forall id | id in s.tables.conns && s.tables.conns[id].kind.Server? && id !in except
      ensures LinkFits(t', id, LinkOf(s, id))
    {
      LinkStays(s.tables, t', id, LinkOf(s, id));
    }
  }

  lemma ClientStaysFit(t: Tables, t': Tables, id: Id)
    requires id in t.conns && ClientFits(t, id) && Preserves(t, t')
    requires t.conns[id].buf == t'.conns[id].buf && (IsConnected(t', id) ==> IsConnected(t, id))
    ensures ClientFits(t', id)
  {
    hide RouteOf;
    if t.conns[id].kind.Client? && IsConnected(t', id) && Refused(t, t.conns[id].buf) {
      StillRefused(t, t', t.conns[id].buf, "");
      Append0(t.conns[id].buf);
    }
  }

  lemma ClientsStayFit(s: System, wired: map<string, seq<int>>, t': Tables, except: set<Id>)
    requires SystemInv(s, wired) && Preserves(s.tables, t')
    requires forall id | id in s.tables.conns && id !in except ::
               t'.conns[id].buf == s.tables.conns[id].buf && (IsConnected(t', id) ==> IsConnected(s.tables, id))
    ensures forall id | id in s.tables.conns && id !in except :: ClientFits(t', id)
  {
    hide Inv, LinkFits, ClientFits, IsConnected;
    forall id | id in s.tables.conns && id !in except ensures ClientFits(t', id) {
      ClientStaysFit(s.tables, t', id);
    }
  }

  lemma AnyServerFits(t: Tables, id: Id)
    requires id in t.conns && t.conns[id].kind.Server?
    ensures ClientFits(t, id)
  {
  }

  /** Acts that only change queue and workers. */
  lemma QueueActKeeps(s: System, wired: map<string, seq<int>>, t': Tables)
    requires SystemInv(s, wired) && Inv(t', wired)
    requires t' == s.tables.(queue := t'.queue, busy := t'.busy)
    ensures SystemInv(s.(tables := t'), wired)
  {
    hide Inv, LinkFits, ClientFits;
    LinksStay(s, wired, t', {});
    ClientsStayFit(s, wired, t', {});
  }

  lemma AcceptKeepsLinks(t: Tables, fd: int, peer: string)
    requires t.next !in t.conns && fd !in t.clientConns
    ensures var t' := Accepted(t, fd, peer);
            Preserves(t, t') && SameLinks(t, t')
            && forall j | j in t.conns :: t'.conns[j] == t.conns[j] && (IsConnected(t', j) ==> IsConnected(t, j))
  {
  }

  lemma ArriveKeeps(s: System, wired: map<string, seq<int>>, fd: int, peer: string)
    requires SystemInv(s, wired) && CanAct(s, Arrives(fd, peer))
    ensures SystemInv(Acted(s, Arrives(fd, peer)), wired)
  {
    hide RouteOf, Enabled, Open, Inv, LinkFits, IsConnected, IsServing, Preserves, SameLinks, Refused;
    var t' := Next(s.tables, Accept(fd, peer)).0;
    StepKeeps(s.tables, wired, Accept(fd, peer));
    AcceptIsFresh(s.tables, wired, fd, peer);
    AcceptKeepsLinks(s.tables, fd, peer);
    LinksStay(s, wired, t', {});
    ClientsStayFit(s, wired, t', {});
  }

  /** Acts that process a connection and change no table. */
  lemma BufKeepsLinks(t: Tables, id: Id, buf: string, busy: map<Worker, Id>)
    requires id in t.conns
    ensures var t' := WithBuf(t, id, buf).(busy := busy);
            Preserves(t, t') && SameLinks(t, t')
            && (forall j | j in t.conns && j != id :: t'.conns[j] == t.conns[j])
            && forall j | j in t.conns :: IsConnected(t', j) ==> IsConnected(t, j)
  {
  }

  /** A buffer changes, and with it at most one link. */
  lemma BufActKeeps(
    s: System, wired: map<string, seq<int>>, id: Id, buf: string, busy: map<Worker, Id>, links: map<Id, Link>)
    requires SystemInv(s, wired) && id in s.tables.conns
    requires var t' := WithBuf(s.tables, id, buf).(busy := busy);
             Inv(t', wired) && ClientFits(t', id)
             && (forall j | j in links :: j in s.tables.conns && s.tables.conns[j].kind.Server?)
             && forall j | j in s.tables.conns && s.tables.conns[j].kind.Server? ::
                  (j != id && LinkOf(System(t', links), j) == LinkOf(s, j))
                  || LinkFits(t', j, LinkOf(System(t', links), j))
    ensures SystemInv(System(WithBuf(s.tables, id, buf).(busy := busy), links), wired)
  {
    hide Inv, LinkFits, ClientFits, IsConnected, IsServing, LinkOf;
    var t' := WithBuf(s.tables, id, buf).(busy := busy);
    BufKeepsLinks(s.tables, id, buf, busy);
    LinksStay(s, wired, t', {id});
    ClientsStayFit(s, wired, t', {id});
  }

  // ---- Clients ----

  /** A connected client's read: either the message is the first in the buffer and is forwarded, or
      everything stays refused. */
  lemma ClientOutcome(t: Tables, wired: map<string, seq<int>>, id: Id, m: string)
    requires Inv(t, wired) && id in Open(t) && t.conns[id].kind.Client? && IsConnected(t, id) && ClientFits(t, id)
    requires m == "" || Find(m, '\n', 0) < |m|
    ensures var (t1, sent) := ClientToServer(t, id, Read(m, true));
            t1 == WithBuf(t, id, t1.conns[id].buf)
            && (t1.conns[id].buf == "" || Refused(t, t1.conns[id].buf))
            && (!sent.Forward? ==> sent == Refusal(id))
            && (sent.Forward? ==>
                  m != "" && sent.text == InsertClient(m, t.conns[id].peer)
                  && RouteOf(FirstLine(m), t.forwarding.Keys).Some?)
  {
    hide RouteOf, InsertClient, Inv, ServerToClient;
    var b := t.conns[id].buf;
    ClientToServerKeeps(t, wired, id, Read(m, true));
    if b == "" {
      assert b + m == m;
      if m == "" { NothingIsRouted(t.forwarding.Keys); }
    } else {
      FirstLineStays(b, m);
    }
  }

  lemma NothingIsRouted(keys: set<string>)
    ensures FirstLine("") == "" && RouteOf("", keys) == None
  {
  }

  /** A request is only sent over a connection that is there. */
  lemma TargetServes(t: Tables, wired: map<string, seq<int>>, id: Id, read: Read)
    requires Inv(t, wired) && id in t.conns && ClientToServer(t, id, read).1.Forward?
    ensures IsServing(t, ClientToServer(t, id, read).1.target)
  {
    hide RouteOf, InsertClient, FirstLine;
    var route := RouteOf(FirstLine(t.conns[id].buf + read.data), t.forwarding.Keys).value;
    var fd := t.forwarding[route.businessCode][0];
    assert IsConn(t, t.serverConns[fd], fd, Server);
  }

  lemma SameRefused(t: Tables, t': Tables, buf: string)
    requires t'.forwarding == t.forwarding
    ensures Refused(t, buf) <==> Refused(t', buf)
  {
    hide RouteOf;
  }

  /** A busy worker's connection is open and known. */
  lemma Connected(t: Tables, wired: map<string, seq<int>>, w: Worker)
    requires Inv(t, wired) && w in t.busy
    ensures t.busy[w] in Open(t) && t.busy[w] in t.conns
  {
    OpenAre(t);
  }

  lemma ReadClientFits(t: Tables, t': Tables, id: Id)
    requires id in t.conns && ClientFits(t, id) && id in t'.conns
    requires t'.conns[id] == t.conns[id].(buf := t'.conns[id].buf)
    requires t'.conns[id].buf == "" || Refused(t', t'.conns[id].buf)
    ensures ClientFits(t', id)
  {
    hide Refused;
  }

  /** A request joins those that are on their way. */
  lemma RequestJoins(t: Tables, t': Tables, id: Id, l: Link, f: Flight)
    requires id in t.conns && LinkFits(t, id, l) && Preserves(t, t') && SameLinks(t, t')
    requires t'.conns[id].buf == t.conns[id].buf && IsServing(t', id) && RequestFits(t', f)
    ensures LinkFits(t', id, l.(requests := l.requests + [f]))
  {
    hide RequestFits, ReplyFits, Rests, ReadFits, Deliveries, Held, ClosingIsLast, Texts, IsServing, Preserves;
    LinkStays(t, t', id, l);
  }

  lemma ClientSendsKeeps(s: System, wired: map<string, seq<int>>, w: Worker, line: string, fs: seq<string>)
    requires SystemInv(s, wired) && CanAct(s, ClientSends(w, line, fs))
    ensures SystemInv(Acted(s, ClientSends(w, line, fs)), wired)
  {
    hide RouteOf, InsertClient, RequestText, Refused, ClientToServer, ServerToClient, Inv, Plain, LinkFits, ClientFits;
    var t, id, m := s.tables, s.tables.busy[w], RequestText(line, fs);
    var read := Read(m, true);
    Connected(t, wired, w);
    RequestTextHasLine(line, fs);
    ClientOutcome(t, wired, id, m);
    StepKeeps(t, wired, Process(w, read));
    var (t1, sent) := ClientToServer(t, id, read);
    var t' := t1.(busy := t.busy - {w});
    assert Next(t, Process(w, read)) == (t', sent);
    SameRefused(t, t', t1.conns[id].buf);
    ReadClientFits(t, t', id);
    BufKeepsLinks(t, id, t1.conns[id].buf, t.busy - {w});
    var s' := Freed(ClientRead(s, id, line, fs), w);
    if sent.Forward? {
      TargetServes(t, wired, id, read);
      assert IsForwarded(sent.text, line, t.conns[id].peer, t.forwarding.Keys);
      RequestJoins(t, t', sent.target, LinkOf(s, sent.target), Flight(id, line, sent.text));
    }
    BufActKeeps(s, wired, id, t1.conns[id].buf, t.busy - {w}, s'.links);
  }

  lemma ClientNothingKeeps(s: System, wired: map<string, seq<int>>, w: Worker)
    requires SystemInv(s, wired) && Works(s.tables, w, Client) && IsConnected(s.tables, s.tables.busy[w])
    ensures SystemInv(Acted(s, NothingToRead(w)), wired)
  {
    hide RouteOf, InsertClient, Refused, ClientToServer, ServerToClient, Inv, LinkFits, ClientFits;
    var t, id, read := s.tables, s.tables.busy[w], Read("", true);
    Connected(t, wired, w);
    ClientOutcome(t, wired, id, "");
    StepKeeps(t, wired, Process(w, read));
    var (t1, sent) := ClientToServer(t, id, read);
    var t' := t1.(busy := t.busy - {w});
    assert Next(t, Process(w, read)) == (t', sent);
    SameRefused(t, t', t1.conns[id].buf);
    ReadClientFits(t, t', id);
    BufKeepsLinks(t, id, t1.conns[id].buf, t.busy - {w});
    BufActKeeps(s, wired, id, t1.conns[id].buf, t.busy - {w}, s.links);
  }

  /** A client that leaves takes only its own entries along. */
  lemma OthersStayConnected(t: Tables, wired: map<string, seq<int>>, id: Id, t': Tables)
    requires Inv(t, wired) && id in Open(t) && t.conns[id].kind.Client?
    requires t'.clientConns == t.clientConns - {t.conns[id].fd} && Preserves(t, t')
    ensures forall j | IsConnected(t, j) && j != id :: IsConnected(t', j)
  {
    hide Inv, Open;
    forall j | IsConnected(t, j) && j != id ensures IsConnected(t', j) {
      OwnEntries(t, wired, id, t.conns[j].fd);
    }
  }

  /** Nothing else is filed under the descriptor of an open client. */
  lemma Unfiled(t: Tables, wired: map<string, seq<int>>, id: Id)
    requires Inv(t, wired) && id in Open(t) && t.conns[id].kind.Client?
    ensures !IsConnected(t.(clientConns := t.clientConns - {t.conns[id].fd}), id)
  {
  }

  lemma LeaveIs(t: Tables, wired: map<string, seq<int>>, id: Id, data: string, busy: map<Worker, Id>)
    requires Inv(t, wired) && id in Open(t) && id in t.conns && t.conns[id].kind.Client?
    ensures var t' := ClientToServer(t, id, Read(data, false)).0.(busy := busy);
            Preserves(t, t') && t'.serverConns == t.serverConns && !IsConnected(t', id)
            && t'.clientConns == t.clientConns - {t.conns[id].fd}
            && forall j | j in t.conns && j != id ::
                 t'.conns[j] == t.conns[j] && (IsConnected(t', j) ==> IsConnected(t, j))
  {
    hide Inv, Open;
    Unfiled(t, wired, id);
  }

  lemma ClientLeavesKeeps(s: System, wired: map<string, seq<int>>, w: Worker, data: string)
    requires SystemInv(s, wired) && CanAct(s, ClientLeaves(w, data))
    ensures SystemInv(Acted(s, ClientLeaves(w, data)), wired)
  {
    hide Inv, ClientToServer, ServerToClient, LinkFits, Expects, ClientFits, IsConnected;
    var t, id := s.tables, s.tables.busy[w];
    Connected(t, wired, w);
    StepKeeps(t, wired, Process(w, Read(data, false)));
    var t' := Acted(s, ClientLeaves(w, data)).tables;
    LeaveIs(t, wired, id, data, t.busy - {w});
    assert t' == ClientToServer(t, id, Read(data, false)).0.(busy := t.busy - {w}) by {
      BusyStays(t, id, data);
    }
    OthersStayConnected(t, wired, id, t');
    ClientsStayFit(s, wired, t', {id});
    GoneClientFits(t, t', id);
    LeaverLinks(s, wired, id, t');
    SameKeys(t, id, data);
  }

  lemma BusyStays(t: Tables, id: Id, data: string)
    requires id in t.conns
    ensures ClientToServer(t, id, Read(data, false)).0.busy == t.busy
  {
  }

  lemma SameKeys(t: Tables, id: Id, data: string)
    requires id in t.conns
    ensures ClientToServer(t, id, Read(data, false)).0.conns.Keys == t.conns.Keys
  {
  }

  lemma LeaverLinks(s: System, wired: map<string, seq<int>>, client: Id, t': Tables)
    requires SystemInv(s, wired) && Preserves(s.tables, t') && t'.serverConns == s.tables.serverConns
    requires forall id | id in s.links :: !Expects(s.links[id], client)
    requires forall j | IsConnected(s.tables, j) && j != client :: IsConnected(t', j)
    requires forall j | j in s.tables.conns && s.tables.conns[j].kind.Server? ::
               t'.conns[j].buf == s.tables.conns[j].buf
    ensures forall j | j in s.tables.conns && s.tables.conns[j].kind.Server? :: LinkFits(t', j, LinkOf(s, j))
  {
    hide Inv, LinkFits, ClientFits, Expects, IsConnected;
    NothingExpectsNew(client);
    forall j | j in s.tables.conns && s.tables.conns[j].kind.Server? ensures LinkFits(t', j, LinkOf(s, j)) {
      LinkStays(s.tables, t', j, LinkOf(s, j));
    }
  }

  lemma NothingExpectsNew(client: Id)
    ensures !Expects(NEW_LINK, client)
  {
  }

  lemma GoneClientFits(t: Tables, t': Tables, id: Id)
    requires id in t.conns && ClientFits(t, id) && Preserves(t, t') && !IsConnected(t', id)
    ensures ClientFits(t', id)
  {
  }

  // ---- The backend ----

  /** The reply to the first request of a link joins those on their way. */
  lemma AnswerFits(t: Tables, id: Id, l: Link, found: Found, updates: bool, body: string)
    requires id in t.conns && LinkFits(t, id, l) && l.requests != [] && !l.closed
    requires forall c | c in t.conns :: ClientFits(t, c)
    requires ReplyText(l.session, l.requests[0].text, found, updates, body).Some?
    ensures LinkFits(t, id, AnswerNext(l, found, updates, body))
  {
    hide ReplyText, Refused, Names, StartsNoClient, Message, Plain, RouteOf, Deliveries, Held, ReadFits, Texts, Rests;
    hide InsertClient, RequestText, Closes, Answered;
    var f, s := l.requests[0], l.session;
    assert RequestFits(t, f) && ClientFits(t, f.origin);
    var fs :| Plain(f.line, fs) && RouteOf(FirstLine(RequestText(f.line, fs)), t.forwarding.Keys).Some?
              && f.text == InsertClient(RequestText(f.line, fs), t.conns[f.origin].peer);
    ReplyNamesSender(s, f.line, fs, t.conns[f.origin].peer, t.forwarding.Keys, found, updates, body);
    BackendReads(s, f.line, fs, t.conns[f.origin].peer, t.forwarding.Keys);
    RestsReady(s);
    OpenRests(s, f.text);
    var l' := AnswerNext(l, found, updates, body);
    assert l'.replies == l.replies + [l'.replies[|l.replies|]];
    assert l'.read + l'.replies == (l.read + l.replies) + [l'.replies[|l.replies|]];
  }

  lemma OpenRests(s: Session, text: string)
    requires Ready(s)
    ensures !Closes(s, text) ==> !Message(s, text).failed
  {
  }

  lemma BackendAnswersKeeps(
    s: System, wired: map<string, seq<int>>, id: Id, found: Found, updates: bool, body: string)
    requires SystemInv(s, wired) && CanAct(s, BackendAnswers(id, found, updates, body))
    ensures SystemInv(Acted(s, BackendAnswers(id, found, updates, body)), wired)
  {
    hide Inv, LinkFits, ClientFits, ReplyText, AnswerNext;
    AnswerFits(s.tables, id, s.links[id], found, updates, body);
  }

  // ---- Servers ----

  /** What the proxy finds in its buffer when a reply has come: the client the request came from, or nobody. */
  lemma ReplyFinds(t: Tables, wired: map<string, seq<int>>, id: Id, l: Link, r: Reply)
    requires Inv(t, wired) && id in t.conns && t.conns[id].kind.Server? && LinkFits(t, id, l) && ReplyFits(t, r)
    requires ClientFits(t, r.origin)
    ensures var c := t.conns[r.origin];
            ExtractClient(t.conns[id].buf + r.text) == (if Echoed(r) then Some(c.peer) else None)
            && c.peer in t.clientTable && t.clientTable[c.peer] == c.fd
            && c.fd in t.clientConns && t.clientConns[c.fd] == r.origin
  {
    hide ExtractClient, Names, StartsNoClient, RouteOf, Echoed, Deliveries, Held, Texts, Filed, Exclusive, Wired, Known;
    BufferNamesNobody(t, id, l);
    var buf, c := t.conns[id].buf, t.conns[r.origin];
    assert ListedAs(t, c.peer, c.fd);
    if Echoed(r) {
      AddressCarried(c.peer);
      NamesIsExtracted(buf, r.text, c.peer);
    } else {
      StartsNoClientJoins(buf, r.text);
      NamelessIsNone(buf + r.text);
    }
  }

  /** The proxy reads a reply, alone or together with the end of the connection. An echoed one is passed on
      to the very connection its request came from, behind everything that was held; any other one is
      held. */
  lemma ServerOutcome(t: Tables, wired: map<string, seq<int>>, id: Id, l: Link, r: Reply, alive: bool)
    requires Inv(t, wired) && id in t.conns && t.conns[id].kind.Server? && LinkFits(t, id, l) && ReplyFits(t, r)
    requires ClientFits(t, r.origin)
    ensures var t1 := if alive then t else Disconnect(t, t.conns[id].fd);
            ServerToClient(t, id, Read(r.text, alive))
            == (WithBuf(t1, id, Texts(Held(l.read + [r]))),
                if Echoed(r) then Forward(r.origin, Texts(Held(l.read)) + r.text) else Nothing)
  {
    hide ExtractClient, Echoed, Deliveries, Inv, LinkFits, ReplyFits, ClientFits, RemoveFirst, Held, Texts;
    HeadIsThere(t, r);
    BufferNamesNobody(t, id, l);
    ReplyFinds(t, wired, id, l, r);
    LastRead(l.read, r);
    LastText(Held(l.read), r);
    NoTexts();
  }

  lemma HeadIsThere(t: Tables, r: Reply)
    requires ReplyFits(t, r)
    ensures r.origin in t.conns
  {
  }

  lemma NoTexts()
    ensures Texts([]) == ""
  {
  }

  /** When one read brings two replies, both go to the client of the first: the second is misdelivered. This
      is why each read is taken to bring one whole message. */
  lemma TwoRepliesInOneRead(t: Tables, wired: map<string, seq<int>>, id: Id, l: Link, r1: Reply, r2: Reply)
    requires Inv(t, wired) && id in t.conns && t.conns[id].kind.Server? && LinkFits(t, id, l)
    requires ReplyFits(t, r1) && ReplyFits(t, r2) && Echoed(r1) && ClientFits(t, r1.origin)
    ensures ServerToClient(t, id, Read(r1.text + r2.text, true))
         == (WithBuf(t, id, ""), Forward(r1.origin, Texts(Held(l.read)) + (r1.text + r2.text)))
  {
    hide ExtractClient, Names, StartsNoClient, RouteOf, Echoed, Deliveries;
    BufferNamesNobody(t, id, l);
    var buf, c := t.conns[id].buf, t.conns[r1.origin];
    AddressCarried(c.peer);
    NamesBefore(r1.text, r2.text, c.peer);
    NamesIsExtracted(buf, r1.text + r2.text, c.peer);
    assert ListedAs(t, c.peer, c.fd);
  }

  lemma NamesBefore(text: string, more: string, addr: string)
    requires Names(text, addr)
    ensures Names(text + more, addr)
  {
    hide StartsNoClient;
    var pre, rest :| StartsNoClient(pre) && text == pre + (CLIENT + addr + "\r\n" + rest);
    assert text + more == pre + (CLIENT + addr + "\r\n" + (rest + more));
  }

  /** What is left of a link when its next reply has been read. */
  lemma ReadLinkFits(t: Tables, t': Tables, id: Id, l: Link, sent: Sent, alive: bool)
    requires id in t.conns && t.conns[id].kind.Server? && LinkFits(t, id, l) && l.replies != []
    requires Preserves(t, t') && SameLinks(t, t') && t'.conns[id].buf == Texts(Held(l.read + [l.replies[0]]))
    requires var r := l.replies[0];
             sent == if Echoed(r) then Forward(r.origin, Texts(Held(l.read)) + r.text) else Nothing
    ensures var r := l.replies[0];
            var passed := if sent.Forward? then [Delivery(r, sent.target, Held(l.read), sent.text)] else [];
            LinkFits(t', id, l.(replies := l.replies[1..], read := l.read + [r], delivered := l.delivered + passed))
  {
    hide Names, StartsNoClient, Echoed, Rests, Held, Texts, Deliveries, IsForwarded;
    var r := l.replies[0];
    LastRead(l.read, r);
    assert ReplyFits(t, r);
    assert l.read + [r] + l.replies[1..] == l.read + l.replies;
    forall q | q in l.replies[1..] ensures ReplyFits(t', q) { assert ReplyFits(t, q); }
    if !l.closed {
      forall f | f in l.requests ensures RequestFits(t', f) { assert RequestFits(t, f); }
    }
  }

  lemma LostFits(t: Tables, t': Tables, id: Id, l: Link)
    requires id in t.conns && LinkFits(t, id, l) && id in t'.conns && t'.conns[id].buf == t.conns[id].buf
    ensures LinkFits(t', id, Lost(l))
  {
    hide RequestFits, ReplyFits, Rests, ReadFits, Held, Texts, Deliveries;
    assert l.read + [] == l.read;
    assert forall k | 0 <= k < |l.read| :: (l.read + l.replies)[k] == l.read[k];
  }

  lemma ServerSendsKeeps(s: System, wired: map<string, seq<int>>, w: Worker)
    requires SystemInv(s, wired) && CanAct(s, ServerSends(w, true))
    ensures SystemInv(Acted(s, ServerSends(w, true)), wired)
  {
    hide Inv, ServerToClient, ClientToServer, LinkFits, ClientFits, Held, Texts, Echoed;
    var t, id := s.tables, s.tables.busy[w];
    var l := LinkOf(s, id);
    var r := l.replies[0];
    HeadFits(t, id, l);
    ServerOutcome(t, wired, id, l, r, true);
    StepKeeps(t, wired, Process(w, Read(r.text, true)));
    var s' := Acted(s, ServerSends(w, true));
    BufKeepsLinks(t, id, Texts(Held(l.read + [r])), t.busy - {w});
    ReadLinkFits(t, s'.tables, id, l, Next(t, Process(w, Read(r.text, true))).1, true);
    AnyServerFits(s'.tables, id);
    BufActKeeps(s, wired, id, Texts(Held(l.read + [r])), t.busy - {w}, s'.links);
  }

  lemma HeadFits(t: Tables, id: Id, l: Link)
    requires id in t.conns && LinkFits(t, id, l) && l.replies != []
    ensures ReplyFits(t, l.replies[0]) && l.replies[0].origin in t.conns
  {
  }

  lemma ServerQuiet(t: Tables, id: Id, l: Link, alive: bool)
    requires id in t.conns && t.conns[id].kind.Server? && LinkFits(t, id, l)
    ensures ServerToClient(t, id, Read("", alive))
         == (WithBuf(if alive then t else Disconnect(t, t.conns[id].fd), id, t.conns[id].buf), Nothing)
  {
    hide ExtractClient, LinkFits, StartsNoClient;
    BufferNamesNobody(t, id, l);
    NamelessIsNone(t.conns[id].buf);
    Append0(t.conns[id].buf);
  }

  lemma ServerNothingKeeps(s: System, wired: map<string, seq<int>>, w: Worker)
    requires SystemInv(s, wired) && Works(s.tables, w, Server)
    ensures SystemInv(Acted(s, NothingToRead(w)), wired)
  {
    hide ServerToClient, ClientToServer, Inv, LinkFits, ClientFits;
    var t, id := s.tables, s.tables.busy[w];
    StepKeeps(t, wired, Process(w, Read("", true)));
    ServerQuiet(t, id, LinkOf(s, id), true);
    assert WithBuf(t, id, t.conns[id].buf) == t;
    QueueActKeeps(s, wired, t.(busy := t.busy - {w}));
  }

  lemma DeadIsPreserved(t: Tables, wired: map<string, seq<int>>, w: Worker, fd: int, buf: string, t': Tables)
    requires Inv(t, wired) && w in t.busy && t.busy[w] in t.conns && t.conns[t.busy[w]].fd == fd
    requires t.conns[t.busy[w]].kind.Server?
    requires t' == WithBuf(Disconnect(t, fd), t.busy[w], buf).(busy := t.busy - {w})
    ensures Preserves(t, t') && t'.clientConns == t.clientConns
    ensures forall j | IsServing(t, j) && j != t.busy[w] :: IsServing(t', j)
    ensures forall j | j in t.conns && j != t.busy[w] :: t'.conns[j] == t.conns[j]
  {
    forall j | IsServing(t, j) && j != t.busy[w] ensures IsServing(t', j) {
      OpenAre(t);
      assert t.conns[j].fd != fd;
    }
    hide Inv;
  }

  /** The server of a busy worker goes, and its link with it. */
  lemma ServerGone(s: System, wired: map<string, seq<int>>, w: Worker, buf: string, l: Link, t': Tables)
    requires SystemInv(s, wired) && Works(s.tables, w, Server) && Inv(t', wired)
    requires var id := s.tables.busy[w];
             t' == WithBuf(Disconnect(s.tables, s.tables.conns[id].fd), id, buf).(busy := s.tables.busy - {w})
             && LinkFits(t', id, l)
    ensures SystemInv(System(t', s.links[s.tables.busy[w] := l]), wired)
  {
    hide Inv, LinkFits, ClientFits, Disconnect, Expects, IsServing;
    var t, id := s.tables, s.tables.busy[w];
    DisconnectKeepsConns(t, t.conns[id].fd);
    DeadIsPreserved(t, wired, w, t.conns[id].fd, buf, t');
    SameClients(t, t');
    ServerStays(t, t', id);
    ClientsStayFit(s, wired, t', {id});
    AnyServerFits(t', id);
    forall j | j in t.conns && t.conns[j].kind.Server? && j != id ensures LinkFits(t', j, LinkOf(s, j)) {
      LinkStays(t, t', j, LinkOf(s, j));
    }
  }

  lemma SameClients(t: Tables, t': Tables)
    requires Preserves(t, t') && t'.clientConns == t.clientConns
    ensures forall c | c in t.conns :: IsConnected(t', c) <==> IsConnected(t, c)
  {
  }

  lemma ServerStays(t: Tables, t': Tables, id: Id)
    requires id in t.conns && Preserves(t, t')
    ensures id in t'.conns && t'.conns[id].kind == t.conns[id].kind
  {
  }

  lemma ServerDiesKeeps(s: System, wired: map<string, seq<int>>, w: Worker)
    requires SystemInv(s, wired) && CanAct(s, ServerDies(w))
    ensures SystemInv(Acted(s, ServerDies(w)), wired)
  {
    hide ServerToClient, ClientToServer, Inv, LinkFits, ClientFits, Disconnect;
    var t, id := s.tables, s.tables.busy[w];
    StepKeeps(t, wired, Process(w, Read("", false)));
    ServerQuiet(t, id, LinkOf(s, id), false);
    DisconnectKeepsConns(t, t.conns[id].fd);
    var t' := WithBuf(Disconnect(t, t.conns[id].fd), id, t.conns[id].buf).(busy := t.busy - {w});
    LostFits(t, t', id, LinkOf(s, id));
    ServerGone(s, wired, w, t.conns[id].buf, Lost(LinkOf(s, id)), t');
    assert Next(t, Process(w, Read("", false))).0 == t';
  }

  lemma DisconnectKeepsConns(t: Tables, fd: int)
    ensures Disconnect(t, fd).conns == t.conns && Disconnect(t, fd).busy == t.busy
  {
  }

  /** The last reply comes together with the end of the connection. */
  lemma ServerEndsKeeps(s: System, wired: map<string, seq<int>>, w: Worker)
    requires SystemInv(s, wired) && CanAct(s, ServerSends(w, false))
    ensures SystemInv(Acted(s, ServerSends(w, false)), wired)
  {
    hide Inv, ServerToClient, ClientToServer, LinkFits, ClientFits, Held, Texts, Echoed, Disconnect, Lost;
    var t, id := s.tables, s.tables.busy[w];
    var l := LinkOf(s, id);
    var r := l.replies[0];
    HeadFits(t, id, l);
    ServerOutcome(t, wired, id, l, r, false);
    StepKeeps(t, wired, Process(w, Read(r.text, false)));
    DisconnectKeepsConns(t, t.conns[id].fd);
    var buf := Texts(Held(l.read + [r]));
    BufKeepsLinks(t, id, buf, t.busy - {w});
    var sent := Next(t, Process(w, Read(r.text, false))).1;
    var passed := if sent.Forward? then [Delivery(r, sent.target, Held(l.read), sent.text)] else [];
    var l' := l.(replies := l.replies[1..], read := l.read + [r], delivered := l.delivered + passed);
    ReadLinkFits(t, WithBuf(t, id, buf).(busy := t.busy - {w}), id, l, sent, false);
    var t' := WithBuf(Disconnect(t, t.conns[id].fd), id, buf).(busy := t.busy - {w});
    LostFits(WithBuf(t, id, buf).(busy := t.busy - {w}), t', id, l');
    ServerGone(s, wired, w, buf, Lost(l'), t');
  }

  // ---- Every act ----

  lemma ActKeeps(s: System, wired: map<string, seq<int>>, a: Act)
    requires SystemInv(s, wired) && CanAct(s, a)
    ensures SystemInv(Acted(s, a), wired)
  {
    hide SystemInv;
    match a {
      case Arrives(fd, peer) => ArriveKeeps(s, wired, fd, peer);
      case Signals(fd) => SignalKeeps(s, wired, fd);
      case Takes(w) => TakesKeeps(s, wired, w);
      case ClientSends(w, line, fs) => ClientSendsKeeps(s, wired, w, line, fs);
      case ClientLeaves(w, data) => ClientLeavesKeeps(s, wired, w, data);
      case NothingToRead(w) =>
        if Works(s.tables, w, Server) { ServerNothingKeeps(s, wired, w); } else { ClientNothingKeeps(s, wired, w); }
      case BackendAnswers(id, found, updates, body) => BackendAnswersKeeps(s, wired, id, found, updates, body);
      case ServerSends(w, alive) => if alive { ServerSendsKeeps(s, wired, w); } else { ServerEndsKeeps(s, wired, w); }
      case ServerDies(w) => ServerDiesKeeps(s, wired, w);
    }
  }

  lemma SignalKeeps(s: System, wired: map<string, seq<int>>, fd: int)
    requires SystemInv(s, wired) && CanAct(s, Signals(fd))
    ensures SystemInv(Acted(s, Signals(fd)), wired)
  {
    hide Inv, LinkFits, ClientFits;
    StepKeeps(s.tables, wired, Event(fd));
    QueueActKeeps(s, wired, Next(s.tables, Event(fd)).0);
  }

  lemma TakesKeeps(s: System, wired: map<string, seq<int>>, w: Worker)
    requires SystemInv(s, wired) && CanAct(s, Takes(w))
    ensures SystemInv(Acted(s, Takes(w)), wired)
  {
    hide Inv, LinkFits, ClientFits;
    StepKeeps(s.tables, wired, Take(w));
    QueueActKeeps(s, wired, Next(s.tables, Take(w)).0);
  }

  // ---- Runs ----

  ghost predicate IsRun(s: System, acts: seq<Act>)
    decreases |acts|
  {
    acts == [] || (CanAct(s, acts[0]) && IsRun(Acted(s, acts[0]), acts[1..]))
  }

  ghost function RunOf(s: System, acts: seq<Act>): System
    requires IsRun(s, acts)
    decreases |acts|
  {
    if acts == [] then s else RunOf(Acted(s, acts[0]), acts[1..])
  }

  /** Before any client has come: wired servers, nothing on its way. */
  ghost predicate Started(s: System, wired: map<string, seq<int>>) {
    && Inv(s.tables, wired) && s.links == map[]
    && forall id | id in s.tables.conns :: s.tables.conns[id].kind.Server? && s.tables.conns[id].buf == ""
  }

  /** The proxy is in such a state when it has connected to its servers. */
  lemma ConnectedIsStarted(t: Tables, wired: map<string, seq<int>>, connect: nat -> int)
    requires Inv(t, wired) && EventLoops.ServersOnly(t, connect)
    ensures Started(System(t, map[]), wired)
  {
    hide Inv;
  }

  lemma NewLinkFits(t: Tables, id: Id)
    requires id in t.conns && t.conns[id].buf == ""
    ensures LinkFits(t, id, NEW_LINK)
  {
  }

  lemma StartFits(s: System, wired: map<string, seq<int>>)
    requires Started(s, wired)
    ensures SystemInv(s, wired)
  {
    hide Inv, LinkFits;
    forall id | id in s.tables.conns ensures LinkFits(s.tables, id, NEW_LINK) { NewLinkFits(s.tables, id); }
  }

  lemma {:induction false} RunsKeep(s: System, wired: map<string, seq<int>>, acts: seq<Act>)
    requires SystemInv(s, wired) && IsRun(s, acts)
    ensures SystemInv(RunOf(s, acts), wired)
    decreases |acts|
  {
    hide SystemInv, CanAct, Acted;
    if acts != [] {
      ActKeeps(s, wired, acts[0]);
      RunsKeep(Acted(s, acts[0]), wired, acts[1..]);
    }
  }

  /** What the proxy sends when a worker reads the next reply of its connection. */
  function Sending(s: System, w: Worker, alive: bool): Sent
    requires w in s.tables.busy && s.tables.busy[w] in s.tables.conns && LinkOf(s, s.tables.busy[w]).replies != []
  {
    ProcessConn(s.tables, s.tables.busy[w], Read(LinkOf(s, s.tables.busy[w]).replies[0].text, alive)).1
  }

  /** End-to-end delivery, over any run of interleaved clients and whatever they send. What has been passed on
      from a server connection is exactly this: every echoed reply, to the connection its request came from,
      behind those that were not echoed since the echoed one before. And the next reply is, when the
      proxy reads it, sent to the connection its request came from if and only if it is echoed, and
      otherwise to nobody. */
  lemma EveryResponseReachesItsSender(s: System, wired: map<string, seq<int>>, acts: seq<Act>)
    requires Started(s, wired) && IsRun(s, acts)
    ensures var e := RunOf(s, acts);
            (forall id | id in e.links :: e.links[id].delivered == Deliveries(e.links[id].read))
            && forall w: Worker, alive: bool :: CanAct(e, ServerSends(w, alive)) ==>
                 var l := LinkOf(e, e.tables.busy[w]);
                 var r := l.replies[0];
                 IsConnected(e.tables, r.origin)
                 && Sending(e, w, alive)
                    == if Echoed(r) then Forward(r.origin, Texts(Held(l.read)) + r.text) else Nothing
  {
    hide Inv, IsRun, RunOf, ServerToClient, ClientToServer, ClientFits, Held, Texts, Deliveries, Echoed, Started;
    StartFits(s, wired);
    RunsKeep(s, wired, acts);
    var e := RunOf(s, acts);
    forall w: Worker, alive: bool | CanAct(e, ServerSends(w, alive))
      ensures var l := LinkOf(e, e.tables.busy[w]);
              var r := l.replies[0];
              IsConnected(e.tables, r.origin)
              && Sending(e, w, alive)
                 == if Echoed(r) then Forward(r.origin, Texts(Held(l.read)) + r.text) else Nothing
    {
      var id := e.tables.busy[w];
      HeadFits(e.tables, id, LinkOf(e, id));
      ServerOutcome(e.tables, wired, id, LinkOf(e, id), LinkOf(e, id).replies[0], alive);
    }
  }
}
