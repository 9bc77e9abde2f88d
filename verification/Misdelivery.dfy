/** Which runs of the whole system pass on to each client just its own reply, which do not, and that every
    reply on its way can still arrive. */
module Misdelivery {
  import opened Sequences
  import opened Options
  import opened Bytes
  import opened HttpRequests
  import opened HttpContexts
  import opened HttpServers
  import opened Routing
  import opened Backend
  import opened ConnectionTables
  import opened EndToEnd
  import Configs
  import SocketIo

  // ---- When a client receives nothing but its own reply ----

  /** A parsed request that is not echoed, and after which the connection stays open, has been answered before
      an echoed one. */
  predicate Overtaken(read: seq<Reply>) {
    exists j, k :: 0 <= j < k < |read| && !Echoed(read[j]) && !read[j].closing && Echoed(read[k])
  }

  lemma HeldIff(read: seq<Reply>)
    ensures Held(read) == [] <==> read == [] || Echoed(read[|read| - 1])
  {
  }

  lemma OvertakenGrows(front: seq<Reply>, last: Reply)
    requires ClosingIsLast(front + [last])
    ensures Overtaken(front + [last])
       <==> Overtaken(front) || (Echoed(last) && exists j :: 0 <= j < |front| && !Echoed(front[j]))
  {
    hide Echoed;
    var read := front + [last];
    assert forall j | 0 <= j < |front| :: read[j] == front[j] && !front[j].closing;
    if j :| 0 <= j < |front| && !Echoed(front[j]) && Echoed(last) {
      assert !Echoed(read[j]) && !read[j].closing && Echoed(read[|front|]);
    }
    if Overtaken(front) {
      var j, k :| 0 <= j < k < |front| && !Echoed(front[j]) && !front[j].closing && Echoed(front[k]);
      assert !Echoed(read[j]) && !read[j].closing && Echoed(read[k]);
    }
    if Overtaken(read) {
      var j, k :| 0 <= j < k < |read| && !Echoed(read[j]) && !read[j].closing && Echoed(read[k]);
      assert !Echoed(front[j]);
      if k < |front| { assert Echoed(front[k]); }
    }
  }

  /** The last one was echoed, and still there is one before that was not. */
  lemma StrangerBefore(front: seq<Reply>, j: nat)
    requires ClosingIsLast(front) && j < |front| && !Echoed(front[j]) && Echoed(front[|front| - 1])
    ensures Overtaken(front)
  {
    assert !front[j].closing;
  }

  predicate AllPure(ds: seq<Delivery>) {
    forall d <- ds :: d.strangers == []
  }

  lemma OneMorePure(ds: seq<Delivery>, d: Delivery)
    ensures AllPure(ds + [d]) <==> AllPure(ds) && d.strangers == []
  {
  }

  /** When one more has been read. */
  lemma PureStep(front: seq<Reply>, last: Reply)
    requires ClosingIsLast(front + [last]) && ClosingIsLast(front)
    requires AllPure(Deliveries(front)) <==> !Overtaken(front)
    ensures AllPure(Deliveries(front + [last])) <==> !Overtaken(front + [last])
  {
    hide Echoed, Overtaken, Held, Texts, Deliveries, AllPure, ClosingIsLast;
    LastRead(front, last);
    OvertakenGrows(front, last);
    if Echoed(last) {
      HeldIff(front);
      OneMorePure(Deliveries(front), Delivery(last, last.origin, Held(front), Texts(Held(front)) + last.text));
      if j: nat :| j < |front| && !Echoed(front[j]) {
        if Echoed(front[|front| - 1]) { StrangerBefore(front, j); }
      }
    } else {
      assert Deliveries(front) + [] == Deliveries(front);
    }
  }

  lemma {:induction false} PureIff(read: seq<Reply>)
    requires ClosingIsLast(read)
    ensures AllPure(Deliveries(read)) <==> !Overtaken(read)
    decreases |read|
  {
    if read != [] {
      var front, last := read[..|read| - 1], read[|read| - 1];
      assert read == front + [last];
      hide Echoed, Overtaken, Held, Texts, Deliveries, AllPure;
      PureIff(front);
      PureStep(front, last);
    }
  }

  lemma {:induction false} TextsOf(rs: seq<Reply>)
    requires forall r <- rs :: r.text != ""
    ensures Texts(rs) == "" <==> rs == []
    decreases |rs|
  {
  }

  lemma {:induction false} DeliveriesAre(read: seq<Reply>)
    requires forall r <- read :: r.text != ""
    ensures forall d <- Deliveries(read) ::
              d.target == d.reply.origin && Echoed(d.reply) && d.text == Texts(d.strangers) + d.reply.text
              && (d.text == d.reply.text <==> d.strangers == [])
    decreases |read|
  {
    hide Echoed, Held;
    if read != [] {
      var front, last := read[..|read| - 1], read[|read| - 1];
      DeliveriesAre(front);
      HeldAreRead(front);
      TextsOf(Held(front));
      if Texts(Held(front)) == "" { assert "" + last.text == last.text; }
    }
  }

  lemma {:induction false} HeldAreRead(read: seq<Reply>)
    ensures forall r <- Held(read) :: r in read
    decreases |read|
  {
    hide Echoed;
    if read != [] { HeldAreRead(read[..|read| - 1]); }
  }

  /** Over every run, everything that was passed on to a client is its own reply and not a byte more, if and only
      if on no connection a parsed request that is not echoed, and keeps the connection open, was answered
      before an echoed one. */
  lemma OwnRepliesIff(s: System, wired: map<string, seq<int>>, acts: seq<Act>)
    requires Started(s, wired) && IsRun(s, acts)
    ensures var e := RunOf(s, acts);
            (forall id, d :: id in e.links && d in e.links[id].delivered ==>
               d.target == d.reply.origin && d.text == d.reply.text)
            <==> forall id | id in e.links :: !Overtaken(e.links[id].read)
  {
    hide Inv, IsRun, RunOf, Started, Overtaken, Echoed, Held, Texts, Deliveries, ClientFits;
    StartFits(s, wired);
    RunsKeep(s, wired, acts);
    var e := RunOf(s, acts);
    forall id | id in e.links
      ensures (forall d <- e.links[id].delivered :: d.target == d.reply.origin && d.text == d.reply.text)
              <==> !Overtaken(e.links[id].read)
    {
      var l := e.links[id];
      assert LinkFits(e.tables, id, LinkOf(e, id)) && LinkOf(e, id) == l;
      OwnOnLink(e.tables, id, l);
    }
    assert (forall id | id in e.links :: !Overtaken(e.links[id].read)) ==>
      forall id, d :: id in e.links && d in e.links[id].delivered ==>
        d.target == d.reply.origin && d.text == d.reply.text;
  }

  lemma OwnOnLink(t: Tables, id: Id, l: Link)
    requires id in t.conns && LinkFits(t, id, l)
    ensures (forall d <- l.delivered :: d.target == d.reply.origin && d.text == d.reply.text) <==> !Overtaken(l.read)
  {
    hide Overtaken, Echoed, Held, Texts, Deliveries, StartsNoClient, RequestFits, ReplyFits, Rests;
    assert forall r <- l.read :: ReadFits(r);
    assert forall k | 0 <= k < |l.read| :: (l.read + l.replies)[k] == l.read[k];
    DeliveriesAre(l.read);
    PureIff(l.read);
  }

  // ---- Building runs ----

  lemma NoActs(s: System)
    ensures IsRun(s, []) && RunOf(s, []) == s
  {
  }

  lemma OneAct(s: System, a: Act, rest: seq<Act>)
    requires CanAct(s, a) && IsRun(Acted(s, a), rest)
    ensures IsRun(s, [a] + rest) && RunOf(s, [a] + rest) == RunOf(Acted(s, a), rest)
  {
    hide CanAct, Acted;
    assert ([a] + rest)[1..] == rest;
  }

  lemma {:induction false} RunsChain(s: System, a: seq<Act>, b: seq<Act>)
    requires IsRun(s, a) && IsRun(RunOf(s, a), b)
    ensures IsRun(s, a + b) && RunOf(s, a + b) == RunOf(RunOf(s, a), b)
    decreases |a|
  {
    hide CanAct, Acted;
    if a == [] {
      assert a + b == b;
    } else {
      assert (a + b)[0] == a[0] && (a + b)[1..] == a[1..] + b;
      RunsChain(Acted(s, a[0]), a[1..], b);
    }
  }

  /** No request waits, and the worker `w` has nothing to do. */
  predicate Quiet(s: System, w: Worker) {
    s.tables.queue == [] && s.tables.queSize > 0 && w !in s.tables.busy
  }

  function Busied(s: System, w: Worker, id: Id): System {
    s.(tables := s.tables.(busy := s.tables.busy[w := id]))
  }

  lemma Signalled(s: System, fd: int, w: Worker, id: Id)
    requires Quiet(s, w) && Owns(s.tables, fd, id)
    ensures CanAct(s, Signals(fd)) && Acted(s, Signals(fd)) == s.(tables := s.tables.(queue := [id]))
  {
    assert s.tables.queue + [id] == [id];
  }

  lemma TakenNow(s1: System, s: System, w: Worker, id: Id)
    requires Quiet(s, w) && s1 == s.(tables := s.tables.(queue := [id]))
    ensures CanAct(s1, Takes(w)) && Acted(s1, Takes(w)) == Busied(s, w, id)
  {
    assert [id][1..] == s.tables.queue;
  }

  /** An event on `fd` is queued and taken. */
  lemma EventTaken(s: System, fd: int, w: Worker, id: Id, a: Act)
    requires Quiet(s, w) && Owns(s.tables, fd, id) && CanAct(Busied(s, w, id), a)
    ensures IsRun(s, [Signals(fd), Takes(w), a])
    ensures RunOf(s, [Signals(fd), Takes(w), a]) == Acted(Busied(s, w, id), a)
  {
    hide CanAct, Acted, Owns, Quiet;
    var s1 := s.(tables := s.tables.(queue := [id]));
    Signalled(s, fd, w, id);
    TakenNow(s1, s, w, id);
    NoActs(Acted(Busied(s, w, id), a));
    OneAct(Busied(s, w, id), a, []);
    assert [a] + [] == [a];
    OneAct(s1, Takes(w), [a]);
    assert [Takes(w)] + [a] == [Takes(w), a];
    OneAct(s, Signals(fd), [Takes(w), a]);
    assert [Signals(fd)] + [Takes(w), a] == [Signals(fd), Takes(w), a];
  }

  lemma FreedAgain(s: System, w: Worker, id: Id)
    requires w !in s.tables.busy
    ensures Freed(Busied(s, w, id), w) == s
  {
    assert s.tables.busy[w := id] - {w} == s.tables.busy;
  }

  lemma ClientTurn(s: System, fd: int, w: Worker, id: Id, line: string)
    requires Quiet(s, w) && Owns(s.tables, fd, id) && IsConnected(s.tables, id) && Plain(line, [])
    ensures var acts := [Signals(fd), Takes(w), ClientSends(w, line, [])];
            IsRun(s, acts) && RunOf(s, acts) == ClientRead(s, id, line, [])
  {
    hide ProcessConn, RequestText, Owns;
    var s2 := Busied(s, w, id);
    var read := Read(RequestText(line, []), true);
    EventTaken(s, fd, w, id, ClientSends(w, line, []));
    ProcessMoves(s.tables, s2.tables.busy, id, read);
    ProcessTouches(s.tables, id, read);
    FreedAgain(ClientRead(s, id, line, []), w, id);
  }

  lemma ServerTurn(s: System, fd: int, w: Worker, id: Id)
    requires Quiet(s, w) && Owns(s.tables, fd, id) && id in s.tables.conns && s.tables.conns[id].kind.Server?
    requires LinkOf(s, id).replies != []
    ensures var acts := [Signals(fd), Takes(w), ServerSends(w, true)];
            IsRun(s, acts) && RunOf(s, acts) == ServerRead(s, id, true)
  {
    hide ProcessConn, Owns, Held;
    var s2 := Busied(s, w, id);
    var read := Read(LinkOf(s, id).replies[0].text, true);
    EventTaken(s, fd, w, id, ServerSends(w, true));
    ProcessMoves(s.tables, s2.tables.busy, id, read);
    ProcessTouches(s.tables, id, read);
    FreedAgain(ServerRead(s, id, true), w, id);
  }

  // ---- Every reply can arrive ----

  /** Only queue, workers and buffers differ, and the server tables are the same. */
  predicate SameOnTheWay(s: System, s': System) {
    && s'.links == s.links
    && s'.tables.serverConns == s.tables.serverConns && s'.tables.queSize == s.tables.queSize
    && KeepsConns(s.tables, s'.tables)
  }

  /** A worker that takes the first request in the queue and finds nothing to read. */
  lemma OneProcessed(s: System, wired: map<string, seq<int>>, w: Worker) returns (acts: seq<Act>)
    requires SystemInv(s, wired) && s.tables.queue != [] && w !in s.tables.busy
    ensures IsRun(s, acts) && SameOnTheWay(s, RunOf(s, acts))
    ensures RunOf(s, acts).tables.queue == s.tables.queue[1..] && w !in RunOf(s, acts).tables.busy
  {
    hide SystemInv, IsRun, RunOf;
    var s1 := TakenFirst(s, w);
    ActKeeps(s, wired, Takes(w));
    var a := NothingOrGone(s1, wired, w);
    NothingChanges(s1, wired, w, a);
    NoActs(Acted(s1, a));
    OneAct(s1, a, []);
    assert [a] + [] == [a];
    OneAct(s, Takes(w), [a]);
    acts := [Takes(w)] + [a];
  }

  lemma TakenFirst(s: System, w: Worker) returns (s': System)
    requires s.tables.queue != [] && w !in s.tables.busy
    ensures CanAct(s, Takes(w)) && s' == Acted(s, Takes(w))
    ensures s'.tables == s.tables.(queue := s.tables.queue[1..], busy := s.tables.busy[w := s.tables.queue[0]])
    ensures s' == s.(tables := s'.tables)
  {
    s' := Acted(s, Takes(w));
  }

  lemma NothingOrGone(s: System, wired: map<string, seq<int>>, w: Worker) returns (a: Act)
    requires SystemInv(s, wired) && w in s.tables.busy
    ensures CanAct(s, a)
    ensures a == NothingToRead(w) || (a == ClientLeaves(w, "") && !IsConnected(s.tables, s.tables.busy[w]))
  {
    hide Inv, ClientFits, IsForwarded, Names, StartsNoClient, Echoed, Deliveries, Held, Texts, Rests;
    var id := s.tables.busy[w];
    Connected(s.tables, wired, w);
    if s.tables.conns[id].kind.Server? || IsConnected(s.tables, id) { return NothingToRead(w); }
    forall j | j in s.links ensures !Expects(s.links[j], id) {
      ExpectedAreConnected(s.tables, j, LinkOf(s, j), id);
    }
    a := ClientLeaves(w, "");
  }

  lemma ExpectedAreConnected(t: Tables, id: Id, l: Link, client: Id)
    requires id in t.conns && LinkFits(t, id, l) && !IsConnected(t, client)
    ensures !Expects(l, client)
  {
    hide IsForwarded, Names, StartsNoClient, Echoed, Deliveries, Held, Texts, Rests, IsConnected;
    forall f | f in l.requests && !l.closed ensures f.origin != client { assert RequestFits(t, f); }
    forall r | r in l.replies ensures r.origin != client { assert ReplyFits(t, r); }
  }

  lemma NothingChanges(s: System, wired: map<string, seq<int>>, w: Worker, a: Act)
    requires SystemInv(s, wired) && CanAct(s, a) && w in s.tables.busy
    requires a == NothingToRead(w) || a == ClientLeaves(w, "")
    ensures SameOnTheWay(s, Acted(s, a))
    ensures Acted(s, a).tables.queue == s.tables.queue && w !in Acted(s, a).tables.busy
  {
    hide Inv, ClientFits, ProcessConn, LinkFits, Expects;
    var t, id := s.tables, s.tables.busy[w];
    Connected(t, wired, w);
    var alive := a.NothingToRead?;
    ProcessTouches(t, id, Read("", alive));
    ProcessKeepsServers(t, id, alive);
  }

  lemma ProcessKeepsServers(t: Tables, id: Id, alive: bool)
    requires id in t.conns && (t.conns[id].kind.Server? ==> alive)
    ensures ProcessConn(t, id, Read("", alive)).0.serverConns == t.serverConns
  {
    hide ExtractClient, RouteOf, InsertClient, FirstLine;
  }

  lemma {:induction false} Drained(s: System, wired: map<string, seq<int>>, w: Worker) returns (acts: seq<Act>)
    requires SystemInv(s, wired) && w !in s.tables.busy
    ensures IsRun(s, acts) && SameOnTheWay(s, RunOf(s, acts))
    ensures RunOf(s, acts).tables.queue == [] && w !in RunOf(s, acts).tables.busy
    decreases |s.tables.queue|
  {
    hide SystemInv;
    if s.tables.queue == [] {
      NoActs(s);
      return [];
    }
    var first := OneProcessed(s, wired, w);
    RunsKeep(s, wired, first);
    var rest := Drained(RunOf(s, first), wired, w);
    RunsChain(s, first, rest);
    acts := first + rest;
  }

  lemma ReplyServerOwns(s: System, wired: map<string, seq<int>>, id: Id)
    requires SystemInv(s, wired) && LinkOf(s, id).replies != []
    ensures id in s.tables.conns && s.tables.conns[id].kind.Server? && Owns(s.tables, s.tables.conns[id].fd, id)
    ensures LinkFits(s.tables, id, LinkOf(s, id)) && ReplyFits(s.tables, LinkOf(s, id).replies[0])
    ensures ClientFits(s.tables, LinkOf(s, id).replies[0].origin)
  {
    hide Inv, ClientFits, RequestFits, Rests, Deliveries, Held, Texts, Echoed;
    TablesAgree(s.tables, wired);
    assert ReplyFits(s.tables, LinkOf(s, id).replies[0]);
  }

  lemma {:induction false} ReadThrough(s: System, wired: map<string, seq<int>>, w: Worker, id: Id, n: nat)
    returns (acts: seq<Act>)
    requires SystemInv(s, wired) && Quiet(s, w) && n <= |LinkOf(s, id).replies|
    ensures IsRun(s, acts) && Quiet(RunOf(s, acts), w)
    ensures var l, l' := LinkOf(s, id), LinkOf(RunOf(s, acts), id);
            l'.replies == l.replies[n..] && l'.read == l.read + l.replies[..n]
    decreases n
  {
    hide SystemInv, IsRun, RunOf, Owns, ServerRead;
    if n == 0 {
      NoActs(s);
      assert LinkOf(s, id).read + [] == LinkOf(s, id).read;
      return [];
    }
    ReplyServerOwns(s, wired, id);
    var fd := s.tables.conns[id].fd;
    ServerTurn(s, fd, w, id);
    var first := [Signals(fd), Takes(w), ServerSends(w, true)];
    RunsKeep(s, wired, first);
    var s1 := ServerRead(s, id, true);
    HeadIsRead(s, w, id);
    var rest := ReadThrough(s1, wired, w, id, n - 1);
    RunsChain(s, first, rest);
    acts := first + rest;
    var l := LinkOf(s, id);
    assert l.read + [l.replies[0]] + l.replies[1..][..n - 1] == l.read + l.replies[..n];
    assert l.replies[1..][n - 1..] == l.replies[n..];
  }

  lemma HeadIsRead(s: System, w: Worker, id: Id)
    requires Quiet(s, w) && id in s.tables.conns && LinkOf(s, id).replies != []
    ensures var s', l := ServerRead(s, id, true), LinkOf(s, id);
            Quiet(s', w) && LinkOf(s', id).replies == l.replies[1..] && LinkOf(s', id).read == l.read + [l.replies[0]]
  {
    hide ProcessConn, Held;
    ProcessTouches(s.tables, id, Read(LinkOf(s, id).replies[0].text, true));
  }

  /** From every reachable state with an idle worker, every reply on its way can arrive: some continuation reads
      all earlier replies of its connection and then this one. If it is echoed it is delivered to the
      connection its request came from, behind those that were held and those among the earlier ones
      that were not echoed since. */
  lemma EachReplyCanArrive(s: System, wired: map<string, seq<int>>, w: Worker, id: Id, i: nat)
    returns (acts: seq<Act>)
    requires SystemInv(s, wired) && w !in s.tables.busy && s.tables.queSize > 0 && i < |LinkOf(s, id).replies|
    ensures IsRun(s, acts)
    ensures var l, l' := LinkOf(s, id), LinkOf(RunOf(s, acts), id);
            var r, held := l.replies[i], Held(l.read + l.replies[..i]);
            l'.replies == l.replies[i + 1..] && l'.read == l.read + l.replies[..i + 1]
            && l'.delivered == Deliveries(l'.read)
            && (Echoed(r) ==> l'.delivered == Deliveries(l.read + l.replies[..i])
                                              + [Delivery(r, r.origin, held, Texts(held) + r.text)])
  {
    hide SystemInv, IsRun, RunOf, Held, Deliveries, Texts, Echoed;
    var calm := Drained(s, wired, w);
    var e := RunOf(s, calm);
    RunsKeep(s, wired, calm);
    var readings := ReadThrough(e, wired, w, id, i + 1);
    RunsChain(s, calm, readings);
    RunsKeep(e, wired, readings);
    acts := calm + readings;
    var l := LinkOf(s, id);
    var front := l.read + l.replies[..i];
    assert l.read + l.replies[..i + 1] == front + [l.replies[i]];
    LastRead(front, l.replies[i]);
    DeliveredIs(RunOf(s, acts), wired, id);
  }

  lemma DeliveredIs(s: System, wired: map<string, seq<int>>, id: Id)
    requires SystemInv(s, wired)
    ensures LinkOf(s, id).delivered == Deliveries(LinkOf(s, id).read)
  {
    hide Inv, ClientFits, RequestFits, ReplyFits, Rests, Held, Texts, Echoed;
    if id in s.links { assert LinkFits(s.tables, id, LinkOf(s, id)); }
  }

  // ---- When a request is not answered with its Client header ----

  /** Two clients that have come, with nothing sent yet. */
  ghost predicate TwoHere(s: System, a: int, b: int, pa: string, pb: string, first: Id, second: Id) {
    && IsConnected(s.tables, first) && Owns(s.tables, a, first) && s.tables.conns[first].buf == ""
    && IsConnected(s.tables, second) && Owns(s.tables, b, second) && s.tables.conns[second].buf == ""
    && s.tables.conns[first].peer == pa && s.tables.conns[second].peer == pb && first != second
    && Address(pa) && Address(pb)
  }

  lemma OneArrives(s: System, wired: map<string, seq<int>>, fd: int, peer: string, w: Worker)
    requires Inv(s.tables, wired) && CanAct(s, Arrives(fd, peer)) && Quiet(s, w)
    ensures var s', id := Acted(s, Arrives(fd, peer)), s.tables.next;
            s' == s.(tables := s'.tables) && Quiet(s', w) && s'.tables.forwarding == s.tables.forwarding
            && s'.tables.serverConns == s.tables.serverConns && KeepsConns(s.tables, s'.tables)
            && IsConnected(s'.tables, id) && Owns(s'.tables, fd, id) && s'.tables.conns[id].buf == ""
            && s'.tables.conns[id].peer == peer && Address(peer)
            && id !in s.tables.conns && s'.tables.next == id + 1
            && s'.tables.conns == s.tables.conns[id := s'.tables.conns[id]] && fd !in s.tables.clientConns
            && s'.tables.clientConns == s.tables.clientConns[fd := id]
  {
    hide Inv, Open;
    AcceptIsFresh(s.tables, wired, fd, peer);
  }

  lemma TwoArrive(s: System, wired: map<string, seq<int>>, a: int, b: int, pa: string, pb: string, w: Worker)
    returns (s2: System)
    requires SystemInv(s, wired) && Quiet(s, w) && CanAct(s, Arrives(a, pa))
    requires CanAct(Acted(s, Arrives(a, pa)), Arrives(b, pb))
    ensures IsRun(s, [Arrives(a, pa), Arrives(b, pb)]) && s2 == RunOf(s, [Arrives(a, pa), Arrives(b, pb)])
    ensures s2 == s.(tables := s2.tables) && Quiet(s2, w) && SystemInv(s2, wired)
    ensures s2.tables.forwarding == s.tables.forwarding && s2.tables.serverConns == s.tables.serverConns
    ensures forall c | c in s.tables.conns :: c in s2.tables.conns && s2.tables.conns[c] == s.tables.conns[c]
    ensures TwoHere(s2, a, b, pa, pb, s.tables.next, s.tables.next + 1)
  {
    hide Inv, CanAct, Acted, LinkFits, ClientFits;
    var s1 := Acted(s, Arrives(a, pa));
    ActKeeps(s, wired, Arrives(a, pa));
    OneArrives(s, wired, a, pa, w);
    s2 := Acted(s1, Arrives(b, pb));
    ActKeeps(s1, wired, Arrives(b, pb));
    OneArrives(s1, wired, b, pb, w);
    NoActs(s2);
    OneAct(s1, Arrives(b, pb), []);
    assert [Arrives(b, pb)] + [] == [Arrives(b, pb)];
    OneAct(s, Arrives(a, pa), [Arrives(b, pb)]);
    assert [Arrives(a, pa)] + [Arrives(b, pb)] == [Arrives(a, pa), Arrives(b, pb)];
  }

  /** A descriptor and an address that no open connection has. */
  ghost predicate MayCome(s: System, fd: int, peer: string) {
    Address(peer) && Enabled(s.tables, Accept(fd, peer))
  }

  lemma BothMayCome(s: System, wired: map<string, seq<int>>, a: int, b: int, pa: string, pb: string)
    requires SystemInv(s, wired) && MayCome(s, a, pa) && MayCome(s, b, pb) && a != b && pa != pb
    ensures CanAct(s, Arrives(a, pa)) && CanAct(Acted(s, Arrives(a, pa)), Arrives(b, pb))
  {
    hide LinkFits, ClientFits, Filed, Paired, Exclusive, Wired;
    AcceptIsFresh(s.tables, wired, a, pa);
    var t' := Acted(s, Arrives(a, pa)).tables;
    forall c | c in Open(t') && c in t'.conns
      ensures t'.conns[c].fd != b && (t'.conns[c].kind.Client? ==> t'.conns[c].peer != pb)
    {
      assert c == s.tables.next || c in Open(s.tables);
    }
  }

  /** The flight of a client's request. */
  function FlightOf(s: System, id: Id, line: string): Flight
    requires id in s.tables.conns
  {
    Flight(id, line, InsertClient(RequestText(line, []), s.tables.conns[id].peer))
  }

  function WithRequest(s: System, server: Id, f: Flight): System {
    s.(links := s.links[server := LinkOf(s, server).(requests := LinkOf(s, server).requests + [f])])
  }

  lemma RequestIsSent(s: System, id: Id, line: string, fd: int)
    requires id in s.tables.conns && s.tables.conns[id].kind.Client? && s.tables.conns[id].buf == ""
    requires fd in s.tables.serverConns && RoutedTo(s.tables, RequestText(line, []), fd)
    ensures ClientRead(s, id, line, []) == WithRequest(s, s.tables.serverConns[fd], FlightOf(s, id, line))
  {
    hide RouteOf, InsertClient, FirstLine, RequestText;
    var m := RequestText(line, []);
    assert "" + m == m;
    assert WithBuf(s.tables, id, "") == s.tables;
  }

  lemma BothSend(s: System, a: int, b: int, first: Id, second: Id, pa: string, pb: string, w: Worker, fd: int,
                 la: string, lb: string) returns (acts: seq<Act>)
    requires TwoHere(s, a, b, pa, pb, first, second) && Quiet(s, w) && fd in s.tables.serverConns && s.links == map[]
    requires Plain(la, []) && RoutedTo(s.tables, RequestText(la, []), fd)
    requires Plain(lb, []) && RoutedTo(s.tables, RequestText(lb, []), fd)
    ensures IsRun(s, acts)
    ensures RunOf(s, acts)
         == s.(links := map[s.tables.serverConns[fd] :=
                              NEW_LINK.(requests := [FlightOf(s, first, la), FlightOf(s, second, lb)])])
  {
    hide IsRun, RunOf, ClientRead, FlightOf, RoutedTo, RequestText, Owns, Plain;
    ClientTurn(s, a, w, first, la);
    RequestIsSent(s, first, la, fd);
    var server := s.tables.serverConns[fd];
    var fa, fb := FlightOf(s, first, la), FlightOf(s, second, lb);
    var actsA := [Signals(a), Takes(w), ClientSends(w, la, [])];
    var s1 := WithRequest(s, server, fa);
    assert s1.tables == s.tables && LinkOf(s1, server) == NEW_LINK.(requests := [] + [fa]);
    ClientTurn(s1, b, w, second, lb);
    RequestIsSent(s1, second, lb, fd);
    SameFlight(s, s1, second, lb);
    var actsB := [Signals(b), Takes(w), ClientSends(w, lb, [])];
    RunsChain(s, actsA, actsB);
    assert [] + [fa] + [fb] == [fa, fb];
    acts := actsA + actsB;
  }

  lemma SameFlight(s: System, s': System, id: Id, line: string)
    requires s'.tables == s.tables && id in s.tables.conns
    ensures FlightOf(s', id, line) == FlightOf(s, id, line)
  {
  }

  /** What the backend does with the next request. */
  lemma OneAnswered(s: System, id: Id, found: Found, updates: bool, body: string) returns (s': System, r: Reply)
    requires CanAct(s, BackendAnswers(id, found, updates, body))
    ensures s' == Acted(s, BackendAnswers(id, found, updates, body))
    ensures var l, f := s.links[id], s.links[id].requests[0];
            r == Reply(f.origin, f.line, l.session.parser.request.querys, Closes(l.session, f.text),
                       ReplyText(l.session, f.text, found, updates, body).value)
            && s' == s.(links := s.links[id := l.(requests := l.requests[1..], session := Message(l.session, f.text),
                                                  closed := Closes(l.session, f.text), replies := l.replies + [r])])
  {
    var l, f := s.links[id], s.links[id].requests[0];
    s' := Acted(s, BackendAnswers(id, found, updates, body));
    r := Reply(f.origin, f.line, l.session.parser.request.querys, Closes(l.session, f.text),
               ReplyText(l.session, f.text, found, updates, body).value);
  }

  /** A request with no fields of its own asks to close exactly if it is an HTTP/1.0 one. */
  lemma BareStaysOpen(s: Session, line: string, peer: string, keys: set<string>)
    requires Rests(s) && Plain(line, []) && Address(peer) && RouteOf(FirstLine(RequestText(line, [])), keys).Some?
    requires Blanks(line) == 2
    ensures var text := InsertClient(RequestText(line, []), peer);
            Closes(s, text) <==> RequestLine(s.parser.request, line).1.version == Http10
  {
    hide Run, RequestLine, RouteOf, InsertClient, RequestText, Blanks, Plain;
    var text := InsertClient(RequestText(line, []), peer);
    BackendReads(s, line, [], peer, keys);
    BareHeaders(s, line, peer, keys);
  }

  lemma BareHeaders(s: Session, line: string, peer: string, keys: set<string>)
    requires Rests(s) && Plain(line, []) && Address(peer) && RouteOf(FirstLine(RequestText(line, [])), keys).Some?
    requires Blanks(line) == 2
    ensures var r := ParsedBy(s, InsertClient(RequestText(line, []), peer));
            Lookup(r.headers, "Connection") == "" && r.version == RequestLine(s.parser.request, line).1.version
  {
    hide Run, RequestLine, RouteOf, InsertClient, RequestText, Blanks, SocketIo.NulFree;
    var text := InsertClient(RequestText(line, []), peer);
    assert "" + text == text;
    BareIsForwarded(s.parser.request, line, peer, keys);
  }

  lemma BothAnswered(s: System, id: Id, fa: Flight, fb: Flight, found: Found, updates: bool, body: string)
    returns (acts: seq<Act>, ra: Reply, rb: Reply)
    requires id in s.links && s.links[id] == NEW_LINK.(requests := [fa, fb])
    requires var s0 := NEW_LINK.session;
             !Closes(s0, fa.text) && ReplyText(s0, fa.text, found, updates, body).Some?
             && Ready(Message(s0, fa.text))
             && ReplyText(Message(s0, fa.text), fb.text, found, updates, body).Some?
    ensures IsRun(s, acts) && RunOf(s, acts).tables == s.tables
    ensures var s0 := NEW_LINK.session;
            var s1 := Message(s0, fa.text);
            ra == Reply(fa.origin, fa.line, map[], false, ReplyText(s0, fa.text, found, updates, body).value)
            && rb == Reply(fb.origin, fb.line, s1.parser.request.querys, Closes(s1, fb.text),
                           ReplyText(s1, fb.text, found, updates, body).value)
    ensures id in RunOf(s, acts).links
            && RunOf(s, acts).links[id] == RunOf(s, acts).links[id].(replies := [ra, rb], read := [], delivered := [])
  {
    hide IsRun, RunOf, Message, ReplyText, Closes;
    var act := BackendAnswers(id, found, updates, body);
    var s1, s2: System;
    s1, ra := OneAnswered(s, id, found, updates, body);
    assert s1.links[id].requests == [fb] && s1.links[id].replies == [ra] by {
      assert [fa, fb][1..] == [fb] && [] + [ra] == [ra];
    }
    s2, rb := OneAnswered(s1, id, found, updates, body);
    assert [ra] + [rb] == [ra, rb];
    NoActs(s2);
    OneAct(s1, act, []);
    assert [act] + [] == [act];
    OneAct(s, act, [act]);
    acts := [act] + [act];
  }

  lemma BothRead(s: System, wired: map<string, seq<int>>, w: Worker, id: Id, ra: Reply, rb: Reply)
    returns (acts: seq<Act>)
    requires SystemInv(s, wired) && Quiet(s, w) && !Echoed(ra) && Echoed(rb)
    requires LinkOf(s, id).replies == [ra, rb] && LinkOf(s, id).read == []
    ensures IsRun(s, acts)
    ensures LinkOf(RunOf(s, acts), id).delivered == [Delivery(rb, rb.origin, [ra], ra.text + rb.text)]
  {
    hide SystemInv, IsRun, RunOf, Echoed, Quiet;
    QuietIs(s, w);
    acts := EachReplyCanArrive(s, wired, w, id, 1);
    assert [] + [ra, rb][..1] == [ra];
    assert [ra][..0] == [];
    assert Held([ra]) == [ra] && Texts([ra]) == ra.text by { assert [] + [ra] == [ra]; assert "" + ra.text == ra.text; }
    assert Deliveries([ra]) == [];
  }

  lemma QuietIs(s: System, w: Worker)
    requires Quiet(s, w)
    ensures w !in s.tables.busy && s.tables.queSize > 0
  {
  }

  /** What the backend makes of the two requests, one after the other on a new connection. */
  lemma BothParsed(la: string, lb: string, pa: string, pb: string, keys: set<string>,
                   found: Found, updates: bool, body: string)
    requires Plain(la, []) && Plain(lb, []) && Address(pa) && Address(pb)
    requires RouteOf(FirstLine(RequestText(la, [])), keys).Some? && RouteOf(FirstLine(RequestText(lb, [])), keys).Some?
    requires Blanks(la) == 2 && RequestLine(FRESH, la).1.version == Http11 && !Answered(map[], la)
    requires var mb := RequestLine(FRESH, la).1.querys;
             Answered(mb, lb) && Decision(RequestLine(FRESH.(querys := mb), lb).1, found, updates).Some?
    ensures var s0, ta := NEW_LINK.session, InsertClient(RequestText(la, []), pa);
            var tb := InsertClient(RequestText(lb, []), pb);
            var s1 := Message(s0, ta);
            !Closes(s0, ta) && ReplyText(s0, ta, found, updates, body).Some? && Ready(s1)
            && s1.parser.request.querys == RequestLine(FRESH, la).1.querys
            && ReplyText(s1, tb, found, updates, body).Some?
  {
    hide Run, RequestLine, RouteOf, InsertClient, RequestText, Blanks, Plain, ReplyText, Closes, Answered, Decision;
    hide Message, Rests, ParsedBy;
    var s0, ta := NEW_LINK.session, InsertClient(RequestText(la, []), pa);
    NewRests();
    BareStaysOpen(s0, la, pa, keys);
    ReplyNamesSender(s0, la, [], pa, keys, found, updates, body);
    BackendReads(s0, la, [], pa, keys);
    var s1 := Message(s0, ta);
    RestsReady(s1);
    RestsSwapped(s1);
    ReplyNamesSender(s1, lb, [], pb, keys, found, updates, body);
  }

  lemma NewRests()
    ensures Rests(NEW_LINK.session)
  {
  }

  lemma RestsSwapped(s: Session)
    requires Rests(s)
    ensures s.parser.request == FRESH.(querys := s.parser.request.querys)
  {
  }

  /** Misdelivery. Whenever one client's request is routed, parsed and keeps the connection open, but is not one
      that the shop answers with its Client header, and another client's is, with the queries the first has left
      behind, and both go to the same server: there is a run in which the second client receives the first
      one's reply, in front of its own. */
  lemma StrangerIsDelivered(
    s: System, wired: map<string, seq<int>>, a: int, b: int, pa: string, pb: string, w: Worker, fd: int,
    la: string, lb: string, found: Found, updates: bool, body: string) returns (acts: seq<Act>)
    requires Started(s, wired) && Quiet(s, w) && fd in s.tables.serverConns
    requires MayCome(s, a, pa) && MayCome(s, b, pb) && a != b && pa != pb
    requires Plain(la, []) && RoutedTo(s.tables, RequestText(la, []), fd)
    requires Plain(lb, []) && RoutedTo(s.tables, RequestText(lb, []), fd)
    requires Blanks(la) == 2 && RequestLine(FRESH, la).1.version == Http11 && !Answered(map[], la)
    requires var mb := RequestLine(FRESH, la).1.querys;
             Answered(mb, lb) && Decision(RequestLine(FRESH.(querys := mb), lb).1, found, updates).Some?
    ensures IsRun(s, acts)
    ensures var first, second, server := s.tables.next, s.tables.next + 1, s.tables.serverConns[fd];
            var s0, ta := NEW_LINK.session, InsertClient(RequestText(la, []), pa);
            var tb := InsertClient(RequestText(lb, []), pb);
            var texta := ReplyText(s0, ta, found, updates, body);
            texta.Some? && Ready(Message(s0, ta))
            && var textb := ReplyText(Message(s0, ta), tb, found, updates, body);
               var ds := LinkOf(RunOf(s, acts), server).delivered;
               textb.Some? && |ds| == 1 && ds[0].target == second && ds[0].text == texta.value + textb.value
               && |ds[0].strangers| == 1 && ds[0].strangers[0].origin == first
  {
    hide Inv, IsRun, RunOf, LinkFits, ClientFits, CanAct, Acted, Owns, RoutedTo, ReplyText, Message, RequestText;
    hide InsertClient, Closes, Plain, RequestLine, Decision, Answered, Blanks, MayCome, Started;
    StartFits(s, wired);
    StartIsEmpty(s, wired);
    BothMayCome(s, wired, a, b, pa, pb);
    var first, second, server := s.tables.next, s.tables.next + 1, s.tables.serverConns[fd];
    var comings := [Arrives(a, pa), Arrives(b, pb)];
    var s2 := TwoArrive(s, wired, a, b, pa, pb, w);
    SameRoutes(s, s2, la, fd);
    SameRoutes(s, s2, lb, fd);
    var sendings := BothSend(s2, a, b, first, second, pa, pb, w, fd, la, lb);
    RunsKeep(s2, wired, sendings);
    RunsChain(s, comings, sendings);
    var s4 := RunOf(s2, sendings);
    RoutedIsRouted(s, la, fd);
    RoutedIsRouted(s, lb, fd);
    BothParsed(la, lb, pa, pb, s.tables.forwarding.Keys, found, updates, body);
    var fa, fb := FlightOf(s2, first, la), FlightOf(s2, second, lb);
    var answers, ra, rb := BothAnswered(s4, server, fa, fb, found, updates, body);
    RunsKeep(s4, wired, answers);
    RunsChain(s, comings + sendings, answers);
    var s6 := RunOf(s4, answers);
    EchoedAs(ra, la, map[]);
    EchoedAs(rb, lb, RequestLine(FRESH, la).1.querys);
    var readings := BothRead(s6, wired, w, server, ra, rb);
    RunsChain(s, comings + sendings + answers, readings);
    acts := comings + sendings + answers + readings;
  }

  lemma StartIsEmpty(s: System, wired: map<string, seq<int>>)
    requires Started(s, wired)
    ensures s.links == map[]
  {
  }

  lemma EchoedAs(r: Reply, line: string, m: map<string, string>)
    requires r.line == line && r.collected == m
    ensures Echoed(r) <==> Answered(m, line)
  {
  }

  lemma SameRoutes(s: System, s': System, line: string, fd: int)
    requires s'.tables.forwarding == s.tables.forwarding
    ensures RoutedTo(s'.tables, RequestText(line, []), fd) <==> RoutedTo(s.tables, RequestText(line, []), fd)
  {
    hide RouteOf;
  }

  lemma RoutedIsRouted(s: System, line: string, fd: int)
    requires RoutedTo(s.tables, RequestText(line, []), fd)
    ensures RouteOf(FirstLine(RequestText(line, [])), s.tables.forwarding.Keys).Some?
  {
    hide RouteOf;
  }

  // ---- A purchase that names no item ----

  const NO_ITEM := "GET /10001/buy/ HTTP/1.1"
  const LISTING := "GET /10001/show/ HTTP/1.1"
  const SHOP := "/10001/"

  lemma BlanksOfThree(path: string)
    requires ' ' !in path
    ensures Blanks("GET" + (" " + (path + (" " + "HTTP/1.1")))) == 2
  {
    BlanksOfShape("GET" + (" " + (path + (" " + "HTTP/1.1"))), "GET", path, "HTTP/1.1");
    NoBlanks(path);
  }

  lemma PathOfThree(q: Request, path: string)
    requires ' ' !in path && '?' !in path
    ensures RequestLine(q, "GET" + (" " + (path + (" " + "HTTP/1.1")))).1
         == q.(verb := Get, path := path, version := Http11)
  {
    hide RequestLine, Find;
    var line := "GET" + (" " + (path + (" " + "HTTP/1.1")));
    ShapeIsAccepted(q, line, "GET", path, "HTTP/1.1");
    NoQuestion(q.(verb := Get), path);
  }

  lemma NoQuestion(q: Request, path: string)
    requires '?' !in path
    ensures WithTarget(q, path) == q.(path := path)
  {
    FindFirst(path, '?', 0);
  }

  /** Such a purchase is answered only if earlier queries on the connection have named item and amount. */
  lemma NoItemIsAnsweredIff(m: map<string, string>)
    ensures Blanks(NO_ITEM) == 2 && RequestLine(FRESH, NO_ITEM).1 == FRESH.(verb := Get, path := BUY, version := Http11)
    ensures Answered(m, NO_ITEM) <==> Lookup(m, "commodity_id") != "" && Lookup(m, "num") != ""
  {
    hide Blanks, RequestLine;
    assert NO_ITEM == "GET" + (" " + (BUY + (" " + "HTTP/1.1")));
    BlanksOfThree(BUY);
    PathOfThree(FRESH.(querys := m), BUY);
    PathOfThree(FRESH, BUY);
  }

  lemma ListingIsAnswered(m: map<string, string>)
    ensures Answered(m, LISTING)
    ensures forall found, updates :: Decision(RequestLine(FRESH.(querys := m), LISTING).1, found, updates).Some?
  {
    hide Blanks, RequestLine, Configs.Stoi;
    assert LISTING == "GET" + (" " + (SHOW + (" " + "HTTP/1.1")));
    BlanksOfThree(SHOW);
    PathOfThree(FRESH.(querys := m), SHOW);
  }

  /** Nothing but the shop's location is configured for the path. */
  predicate ShopOnly(path: string, keys: set<string>) {
    SHOP in keys && path != "" && path !in keys && path[..|path| - 1] !in keys
  }

  lemma ShopServes(path: string, keys: set<string>)
    requires (path == BUY || path == SHOW) && ShopOnly(path, keys)
    ensures ForwardPrefix(path, keys) == Some(SHOP)
  {
    hide PrefixUpTo;
    assert path[..7] == SHOP;
    assert Serves(path, keys, 7);
    PrefixStep(path, keys, 7);
    forall k: nat | 7 < k <= |path| ensures !Serves(path, keys, k) {
      assert path[..|path|] == path;
    }
    NothingBetween(path, keys, |path|, 7);
  }

  lemma ShopIsRouted(t: Tables, path: string, fd: int)
    requires (path == BUY || path == SHOW) && ShopOnly(path, t.forwarding.Keys)
    requires t.forwarding[SHOP] != [] && t.forwarding[SHOP][0] == fd
    ensures RoutedTo(t, RequestText("GET" + (" " + (path + (" " + "HTTP/1.1"))), []), fd)
  {
    hide RouteOf, ForwardPrefix, RequestText, FirstLine, Find;
    var line := "GET" + (" " + (path + (" " + "HTTP/1.1")));
    InsertedText(line, [], "");
    ShopServes(path, t.forwarding.Keys);
    ShapeRoutes("GET", path, "HTTP/1.1", t.forwarding.Keys);
  }

  lemma PlainLine(line: string)
    requires '\n' !in line && SocketIo.NulFree(line)
    ensures Plain(line, [])
  {
    assert RequestText(line, []) == line + ("\r\n" + ("" + "\r\n"));
  }

  lemma BothArePlain()
    ensures Plain(NO_ITEM, []) && Plain(LISTING, [])
  {
    hide Plain, RequestText;
    PlainLine(NO_ITEM);
    PlainLine(LISTING);
  }

  /** So, with the shop at its location: when one client asks to buy and names no item, and another one asks
      for the list, the second can be sent the untouched response to the first, in front of its own. */
  lemma PurchaseWithoutItemIsMisdelivered(
    s: System, wired: map<string, seq<int>>, a: int, b: int, pa: string, pb: string, w: Worker, fd: int,
    found: Found, updates: bool, body: string) returns (acts: seq<Act>)
    requires Started(s, wired) && Quiet(s, w) && fd in s.tables.serverConns
    requires MayCome(s, a, pa) && MayCome(s, b, pb) && a != b && pa != pb
    requires ShopOnly(BUY, s.tables.forwarding.Keys) && ShopOnly(SHOW, s.tables.forwarding.Keys)
    requires s.tables.forwarding[SHOP] != [] && s.tables.forwarding[SHOP][0] == fd
    ensures IsRun(s, acts)
    ensures var first, second, server := s.tables.next, s.tables.next + 1, s.tables.serverConns[fd];
            var ds := LinkOf(RunOf(s, acts), server).delivered;
            |ds| == 1 && ds[0].target == second && |ds[0].strangers| == 1 && ds[0].strangers[0].origin == first
            && ds[0].text == ds[0].strangers[0].text + ds[0].reply.text && ds[0].strangers[0].text != ""
  {
    hide Started, IsRun, RunOf, RoutedTo, RequestText, InsertClient, ReplyText, Answered, Blanks, RequestLine;
    hide ShopOnly, MayCome, Quiet, Plain, Decision, Message;
    NoItemIsAnsweredIff(map[]);
    ListingIsAnswered(map[]);
    BothArePlain();
    ShopIsRouted(s.tables, BUY, fd);
    ShopIsRouted(s.tables, SHOW, fd);
    assert NO_ITEM == "GET" + (" " + (BUY + (" " + "HTTP/1.1")));
    assert LISTING == "GET" + (" " + (SHOW + (" " + "HTTP/1.1")));
    acts := StrangerIsDelivered(s, wired, a, b, pa, pb, w, fd, NO_ITEM, LISTING, found, updates, body);
    DeliveryIs(s, wired, acts, s.tables.serverConns[fd]);
  }

  lemma DeliveryIs(s: System, wired: map<string, seq<int>>, acts: seq<Act>, id: Id)
    requires Started(s, wired) && IsRun(s, acts) && |LinkOf(RunOf(s, acts), id).delivered| == 1
    requires |LinkOf(RunOf(s, acts), id).delivered[0].strangers| == 1
    ensures var d := LinkOf(RunOf(s, acts), id).delivered[0];
            d.text == d.strangers[0].text + d.reply.text && d.strangers[0].text != ""
  {
    hide Started, IsRun, RunOf, Inv, LinkFits, ClientFits;
    StartFits(s, wired);
    RunsKeep(s, wired, acts);
    var e := RunOf(s, acts);
    var l := LinkOf(e, id);
    assert LinkFits(e.tables, id, l);
    ReadNotEmpty(e.tables, id, l);
    DeliveriesAre(l.read);
    StrangersAreRead(l.read);
    var d := l.delivered[0];
    assert d.strangers == [d.strangers[0]];
    OneText(d.strangers[0]);
  }

  lemma ReadNotEmpty(t: Tables, id: Id, l: Link)
    requires id in t.conns && LinkFits(t, id, l)
    ensures l.delivered == Deliveries(l.read) && forall r <- l.read :: r.text != ""
  {
    hide RequestFits, ReplyFits, Rests, Held, Texts, Deliveries, Echoed, StartsNoClient;
    assert forall r <- l.read :: ReadFits(r);
  }

  lemma {:induction false} StrangersAreRead(read: seq<Reply>)
    ensures forall d <- Deliveries(read) :: forall r <- d.strangers :: r in read
    decreases |read|
  {
    hide Echoed, Held, Texts;
    if read != [] {
      StrangersAreRead(read[..|read| - 1]);
      HeldAreRead(read[..|read| - 1]);
    }
  }

  lemma OneText(r: Reply)
    ensures Texts([r]) == r.text
  {
    assert [r][..0] == [];
    assert "" + r.text == r.text;
  }

  // ---- A purchase whose amount is no number ----

  const BAD_PAIRS := [("commodity_id", "1"), ("num", "abc")]

  /** /10001/buy/?commodity_id=1&num=abc */
  function BadTarget(): string {
    BUY + ("?" + PrintPairs(BAD_PAIRS))
  }

  function BadAmount(): string {
    "GET" + (" " + (BadTarget() + (" " + "HTTP/1.1")))
  }

  lemma BadTargetIs()
    ensures PrintPairs(BAD_PAIRS) == "commodity_id" + ("=" + ("1" + ("&" + ("num" + ("=" + ("abc" + ""))))))
    ensures forall c <- BadTarget() :: c != ' ' && c != '\n' && c != 0 as char
  {
    PrintsTwo("commodity_id", "1", "num", "abc");
  }

  lemma BadQueryIs(q: Request)
    requires q.querys == map[]
    ensures RequestLine(q, BadAmount()).1.path == BUY
    ensures RequestLine(q, BadAmount()).1.querys == map["commodity_id" := "1", "num" := "abc"]
  {
    hide RequestLine, PrintPairs;
    BadTargetIs();
    QueryOfThree(q, BUY, BAD_PAIRS);
    LastOfTwo(("commodity_id", "1"), ("num", "abc"));
  }

  lemma QueryOfThree(q: Request, path: string, ps: seq<Pair>)
    requires '?' !in path && (forall p <- ps :: Printable(p)) && ' ' !in path + ("?" + PrintPairs(ps))
    ensures var r := RequestLine(q, "GET" + (" " + (path + ("?" + PrintPairs(ps)) + (" " + "HTTP/1.1")))).1;
            r.path == path && r.querys == q.querys + LastWins(ps)
  {
    hide RequestLine, WithTarget, Find, PrintPairs, LastWins;
    var target := path + ("?" + PrintPairs(ps));
    ShapeIsAccepted(q, "GET" + (" " + (target + (" " + "HTTP/1.1"))), "GET", target, "HTTP/1.1");
    TargetWithQuery(q.(verb := Get), path, ps);
  }

  lemma PrintsTwo(k1: string, v1: string, k2: string, v2: string)
    ensures PrintPairs([(k1, v1), (k2, v2)]) == k1 + ("=" + (v1 + ("&" + (k2 + ("=" + (v2 + ""))))))
  {
    var both, second := [(k1, v1), (k2, v2)], [(k2, v2)];
    assert both[1..] == second && second[1..] == [];
    assert PrintPairs(second) == k2 + ("=" + (v2 + PrintRest([])));
    assert PrintRest(second) == "&" + PrintPairs(second);
    assert PrintPairs(both) == k1 + ("=" + (v1 + PrintRest(second)));
  }

  lemma LastOfTwo(p: Pair, q: Pair)
    requires p.0 != q.0
    ensures LastWins([p, q]) == map[p.0 := p.1, q.0 := q.1]
  {
    assert [p, q][1..] == [q] && [q][1..] == [];
    assert LastWins([q]) == map[q.0 := q.1] + LastWins([]);
    assert LastWins([p, q]) == map[p.0 := p.1] + map[q.0 := q.1];
  }

  lemma NoNumber()
    ensures Configs.Stoi("abc") == None
  {
  }

  /** "/10001/buy/?commodity_id=1&num=abc" names item and amount, and is routed wherever the shop is configured;
      but when the item is found there is no reply, so its sender is not named for every database. */
  lemma BadAmountHasNoReply(peer: string, keys: set<string>, stock: int, updates: bool, body: string)
    requires Address(peer) && SHOP in keys
    ensures var text := InsertClient(RequestText(BadAmount(), []), peer);
            Plain(BadAmount(), []) && RouteOf(FirstLine(RequestText(BadAmount(), [])), keys).Some?
            && Answered(map[], BadAmount())
            && ReplyText(NEW_LINK.session, text, Row(stock), updates, body) == None
            && !NamedForEvery(NEW_LINK.session, text, peer)
  {
    hide RequestLine, RouteOf, RequestText, FirstLine, InsertClient, ReplyText, Blanks, Configs.Stoi, Find;
    hide ForwardPrefix, Rests, BadTarget;
    BadTargetIs();
    BadIsPlain();
    BadIsRouted(keys);
    BadQueryIs(FRESH);
    BlanksOfThree(BadTarget());
    NoNumber();
    NewRests();
    ReplyNamesSender(NEW_LINK.session, BadAmount(), [], peer, keys, Row(stock), updates, body);
  }

  lemma BadIsPlain()
    ensures Plain(BadAmount(), [])
  {
    hide Plain, RequestText, BadTarget, PrintPairs;
    BadTargetIs();
    PlainLine(BadAmount());
  }

  lemma BadIsRouted(keys: set<string>)
    requires SHOP in keys
    ensures RouteOf(FirstLine(RequestText(BadAmount(), [])), keys).Some?
  {
    hide RouteOf, ForwardPrefix, RequestText, FirstLine, PrintPairs;
    assert BadTarget()[..7] == SHOP by { assert BUY[..7] == SHOP; }
    assert Serves(BadTarget(), keys, 7);
    LongestPrefix(BadTarget(), keys);
    BadIsPlain();
    PlainHasNoLineEnd(BadAmount());
    InsertedText(BadAmount(), [], "");
    ShapeRoutes("GET", BadTarget(), "HTTP/1.1", keys);
  }

  lemma PlainHasNoLineEnd(line: string)
    requires Plain(line, [])
    ensures '\n' !in line
  {
  }
}
