/** The proxy's connection tables as a state machine: connections are accepted, queued, taken by
    workers and processed while descriptors and peer addresses are closed and used again.
    Each processing of a connection is one atomic step; the kernel never hands out a descriptor,
    nor accepts a peer address, that an open connection still has; accepts succeed. */
module ConnectionTables {
  import opened Sequences
  import opened Options
  import opened Bytes
  import opened Routing

  /** The identity of a connection object. */
  type Id = nat
  type Worker = nat

  datatype Kind = Client | Server
  datatype Conn = Conn(fd: int, kind: Kind, peer: string, buf: string)

  datatype Tables = Tables(
    conns: map<Id, Conn>,            // every connection object made so far
    next: Id,                        // the identity of the next one
    forwarding: map<string, seq<int>>,
    serverConns: map<int, Id>,
    clientTable: map<string, int>,
    clientConns: map<int, Id>,
    queSize: nat,
    queue: seq<Id>,                  // the pool's request queue, at most queSize long
    busy: map<Worker, Id>)

  /** The tables of a new event loop. */
  function Empty(queSize: nat): Tables {
    Tables(map[], 0, map[], map[], map[], map[], queSize, [], map[])
  }

  /** What one read brings: the bytes appended to the buffer, and whether the peer is still there. */
  datatype Read = Read(data: string, alive: bool)

  /** What one processing sends. `Crash` is the use of a table entry that is not there. */
  datatype Sent = Nothing | Refusal(self: Id) | Forward(target: Id, text: string) | Crash

  datatype Step =
    | Accept(fd: int, peer: string)
    | Event(fd: int)
    | Take(worker: Worker)
    | Process(worker: Worker, read: Read)

  /** The connections something still refers to: these and only these are open. */
  function Open(s: Tables): set<Id> {
    s.serverConns.Values + s.clientConns.Values + (set c | c in s.queue) + s.busy.Values
  }

  // ---- The steps ----

  function RemoveFirst(fds: seq<int>, fd: int): seq<int> {
    if fds == [] then [] else if fds[0] == fd then fds[1..] else [fds[0]] + RemoveFirst(fds[1..], fd)
  }

  function WithBuf(s: Tables, id: Id, buf: string): Tables
    requires id in s.conns
  {
    s.(conns := s.conns[id := s.conns[id].(buf := buf)])
  }

  function ClientToServer(s: Tables, id: Id, read: Read): (Tables, Sent)
    requires id in s.conns
  {
    var c := s.conns[id];
    var buf := c.buf + read.data;
    var s1 := WithBuf(s, id, buf);
    if !read.alive then (s1.(clientConns := s.clientConns - {c.fd}, clientTable := s.clientTable - {c.peer}), Nothing)
    else match RouteOf(FirstLine(buf), s.forwarding.Keys)
      case None => (s1, Refusal(id))
      case Some(route) =>
        if route.businessCode !in s.forwarding || s.forwarding[route.businessCode] == [] then (s1, Refusal(id)) else
        var fd := s.forwarding[route.businessCode][0];
        if fd !in s.serverConns then (s1, Crash)
        else (WithBuf(s, id, ""), Forward(s.serverConns[fd], InsertClient(buf, c.peer)))
  }

  function ServerToClient(s: Tables, id: Id, read: Read): (Tables, Sent)
    requires id in s.conns
  {
    var c := s.conns[id];
    var buf := c.buf + read.data;
    var s1 := if read.alive then s else Disconnect(s, c.fd);
    match ExtractClient(buf)
    case None => (WithBuf(s1, id, buf), Nothing)
    case Some(client) =>
      if client !in s.clientTable then (WithBuf(s1, id, buf), Nothing)
      else if s.clientTable[client] !in s.clientConns then (WithBuf(s1, id, buf), Crash)
      else (WithBuf(s1, id, ""), Forward(s.clientConns[s.clientTable[client]], buf))
  }

  /** A server connection is gone: its table entry and its place in every list. */
  function Disconnect(s: Tables, fd: int): Tables {
    s.(serverConns := s.serverConns - {fd},
       forwarding := map loc | loc in s.forwarding :: RemoveFirst(s.forwarding[loc], fd))
  }

  function ProcessConn(s: Tables, id: Id, read: Read): (Tables, Sent)
    requires id in s.conns
  {
    if s.conns[id].kind.Server? then ServerToClient(s, id, read) else ClientToServer(s, id, read)
  }

  function Queued(s: Tables, fd: int): Tables {
    if fd in s.clientConns then s.(queue := s.queue + [s.clientConns[fd]])
    else if fd in s.serverConns then s.(queue := s.queue + [s.serverConns[fd]])
    else s
  }

  function Accepted(s: Tables, fd: int, peer: string): Tables {
    s.(conns := s.conns[s.next := Conn(fd, Client, peer, "")],
       next := s.next + 1,
       clientConns := if fd in s.clientConns then s.clientConns else s.clientConns[fd := s.next],
       clientTable := s.clientTable[peer := fd])
  }

  /** When a step can be taken. Accepting: what the kernel guarantees. An event whose connection has to
      be queued waits in the event loop until the queue has room. */
  predicate Enabled(s: Tables, step: Step) {
    match step
    case Accept(fd, peer) => forall c | c in Open(s) && c in s.conns ::
        s.conns[c].fd != fd && (s.conns[c].kind.Client? ==> s.conns[c].peer != peer)
    case Event(fd) => fd in s.clientConns || fd in s.serverConns ==> |s.queue| < s.queSize
    case Take(w) => w !in s.busy && s.queue != []
    case Process(w, _) => w in s.busy && s.busy[w] in s.conns
  }

  function Next(s: Tables, step: Step): (Tables, Sent)
    requires Enabled(s, step)
  {
    match step
    case Accept(fd, peer) => (Accepted(s, fd, peer), Nothing)
    case Event(fd) => (Queued(s, fd), Nothing)
    case Take(w) => (s.(queue := s.queue[1..], busy := s.busy[w := s.queue[0]]), Nothing)
    case Process(w, read) =>
      var (s', sent) := ProcessConn(s, s.busy[w], read);
      (s'.(busy := s'.busy - {w}), sent)
  }

  // ---- The invariant ----

  /** Every identity in use is that of a connection made before. */
  predicate Known(s: Tables) {
    && (forall c | c in Open(s) :: c in s.conns)
    && (forall c | c in s.conns :: c < s.next)
  }

  /** Both connection maps file a connection of their kind under its own descriptor. */
  predicate Filed(s: Tables) {
    && (forall fd | fd in s.clientConns :: IsConn(s, s.clientConns[fd], fd, Client))
    && (forall fd | fd in s.serverConns :: IsConn(s, s.serverConns[fd], fd, Server))
  }

  predicate IsConn(s: Tables, id: Id, fd: int, kind: Kind) {
    id in s.conns && s.conns[id].fd == fd && s.conns[id].kind == kind
  }

  /** The address table and the client map are in bijection by peer address. */
  predicate Paired(s: Tables) {
    && (forall a | a in s.clientTable :: IsClient(s, s.clientTable[a], a))
    && (forall fd | fd in s.clientConns && s.clientConns[fd] in s.conns ::
          ListedAs(s, s.conns[s.clientConns[fd]].peer, fd))
  }

  predicate IsClient(s: Tables, fd: int, peer: string) {
    fd in s.clientConns && s.clientConns[fd] in s.conns && s.conns[s.clientConns[fd]].peer == peer
  }

  predicate ListedAs(s: Tables, peer: string, fd: int) {
    peer in s.clientTable && s.clientTable[peer] == fd
  }

  /** No two open connections share a descriptor, no two open clients a peer address. */
  predicate Exclusive(s: Tables)
    requires Known(s)
  {
    forall c, d | c in Open(s) && d in Open(s) && c != d ::
      s.conns[c].fd != s.conns[d].fd
      && (s.conns[c].kind.Client? && s.conns[d].kind.Client? ==> s.conns[c].peer != s.conns[d].peer)
  }

  function Alive(fds: seq<int>, live: set<int>): seq<int> {
    if fds == [] then [] else (if fds[0] in live then [fds[0]] else []) + Alive(fds[1..], live)
  }

  /** Each location lists exactly the servers it was wired to at the start, in that order, without
      those that have disconnected. */
  predicate Wired(s: Tables, wired: map<string, seq<int>>) {
    && s.forwarding.Keys == wired.Keys
    && forall loc | loc in wired :: Distinct(wired[loc]) && s.forwarding[loc] == Alive(wired[loc], s.serverConns.Keys)
  }

  predicate Inv(s: Tables, wired: map<string, seq<int>>) {
    Known(s) && Filed(s) && Paired(s) && Exclusive(s) && Wired(s, wired) && |s.queue| <= s.queSize
  }

  // ---- What the invariant says ----

  lemma {:induction false} AliveAre(fds: seq<int>, live: set<int>)
    ensures forall fd :: fd in Alive(fds, live) <==> fd in fds && fd in live
  {
    if fds != [] { AliveAre(fds[1..], live); }
  }

  /** A descriptor never belongs to a client and a server at once, and every descriptor a request
      can be routed to is that of an open server connection. */
  lemma TablesAgree(s: Tables, wired: map<string, seq<int>>)
    requires Inv(s, wired)
    ensures s.clientConns.Keys !! s.serverConns.Keys
    ensures forall loc, fd :: loc in s.forwarding && fd in s.forwarding[loc] ==> fd in s.serverConns
  {
    OpenAre(s);
    forall fd | fd in s.clientConns ensures fd !in s.serverConns {
      var c := s.clientConns[fd];
      assert IsConn(s, c, fd, Client);
    }
    forall loc, fd | loc in s.forwarding && fd in s.forwarding[loc] ensures fd in s.serverConns {
      AliveAre(wired[loc], s.serverConns.Keys);
    }
  }

  lemma {:induction false} AliveHead(fds: seq<int>, live: set<int>, i: nat)
    requires i < |fds| && fds[i] in live && forall j :: 0 <= j < i ==> fds[j] !in live
    ensures Alive(fds, live) != [] && Alive(fds, live)[0] == fds[i]
  {
    if i > 0 { AliveHead(fds[1..], live, i - 1); }
  }

  /** The first of `fds` that is alive. */
  lemma {:induction false} FirstAlive(fds: seq<int>, live: set<int>) returns (i: nat)
    requires Alive(fds, live) != []
    ensures i < |fds| && fds[i] in live && Alive(fds, live)[0] == fds[i]
    ensures forall j :: 0 <= j < i ==> fds[j] !in live
  {
    if fds[0] in live { return 0; }
    var k := FirstAlive(fds[1..], live);
    assert forall j :: 0 < j < k + 1 ==> fds[j] == fds[1..][j - 1];
    i := k + 1;
  }

  lemma AliveOrder(fds: seq<int>, live: set<int>)
    ensures forall i: nat :: i < |fds| && fds[i] in live && (forall j :: 0 <= j < i ==> fds[j] !in live)
              ==> Alive(fds, live) != [] && Alive(fds, live)[0] == fds[i]
    ensures Alive(fds, live) == [] <==> forall i :: 0 <= i < |fds| ==> fds[i] !in live
  {
    hide Alive;
    forall i: nat | i < |fds| && fds[i] in live && (forall j :: 0 <= j < i ==> fds[j] !in live)
      ensures Alive(fds, live) != [] && Alive(fds, live)[0] == fds[i]
    {
      AliveHead(fds, live, i);
    }
    if Alive(fds, live) != [] {
      var i := FirstAlive(fds, live);
    } else {
      AliveAre(fds, live);
    }
  }

  /** Failover order: the server a request goes to is the first of the configured ones that is
      still connected, and there is none only when all of them have disconnected. */
  lemma FirstLiveServer(s: Tables, wired: map<string, seq<int>>, loc: string)
    requires Inv(s, wired) && loc in wired
    ensures loc in s.forwarding
    ensures forall i: nat :: i < |wired[loc]| && wired[loc][i] in s.serverConns
                && (forall j :: 0 <= j < i ==> wired[loc][j] !in s.serverConns)
              ==> s.forwarding[loc] != [] && s.forwarding[loc][0] == wired[loc][i]
    ensures s.forwarding[loc] == [] <==> forall i :: 0 <= i < |wired[loc]| ==> wired[loc][i] !in s.serverConns
  {
    hide Alive, Known, Filed, Paired, Exclusive;
    AliveOrder(wired[loc], s.serverConns.Keys);
  }

  // ---- Every step keeps the invariant ----

  lemma OpenAre(s: Tables)
    ensures forall fd | fd in s.clientConns :: s.clientConns[fd] in Open(s)
    ensures forall fd | fd in s.serverConns :: s.serverConns[fd] in Open(s)
    ensures forall w | w in s.busy :: s.busy[w] in Open(s)
    ensures forall c | c in s.queue :: c in Open(s)
  {
  }

  lemma AcceptIsFresh(s: Tables, wired: map<string, seq<int>>, fd: int, peer: string)
    requires Inv(s, wired) && Enabled(s, Accept(fd, peer))
    ensures fd !in s.clientConns && fd !in s.serverConns && peer !in s.clientTable && s.next !in s.conns
  {
    OpenAre(s);
    assert forall g | g in s.clientConns :: IsConn(s, s.clientConns[g], g, Client);
    assert forall g | g in s.serverConns :: IsConn(s, s.serverConns[g], g, Server);
    assert forall a | a in s.clientTable :: IsClient(s, s.clientTable[a], a);
  }

  lemma AcceptKeeps(s: Tables, wired: map<string, seq<int>>, fd: int, peer: string)
    requires Inv(s, wired) && Enabled(s, Accept(fd, peer))
    ensures Inv(Accepted(s, fd, peer), wired)
  {
    AcceptIsFresh(s, wired, fd, peer);
    var s' := Accepted(s, fd, peer);
    assert s'.clientConns.Values <= s.clientConns.Values + {s.next};
    assert Open(s') <= Open(s) + {s.next};
    assert Known(s') && Exclusive(s');
    assert Filed(s') by {
      forall g | g in s'.clientConns ensures IsConn(s', s'.clientConns[g], g, Client) {
        if g != fd { assert IsConn(s, s.clientConns[g], g, Client); }
      }
      forall g | g in s'.serverConns ensures IsConn(s', s'.serverConns[g], g, Server) {
        assert IsConn(s, s.serverConns[g], g, Server);
      }
    }
    AcceptKeepsPairs(s, wired, fd, peer);
  }

  lemma AcceptKeepsPairs(s: Tables, wired: map<string, seq<int>>, fd: int, peer: string)
    requires Inv(s, wired) && Enabled(s, Accept(fd, peer))
    ensures Paired(Accepted(s, fd, peer))
  {
    AcceptIsFresh(s, wired, fd, peer);
    var s' := Accepted(s, fd, peer);
    forall a | a in s'.clientTable ensures IsClient(s', s'.clientTable[a], a) {
      if a != peer { assert IsClient(s, s.clientTable[a], a); }
    }
    forall g | g in s'.clientConns && s'.clientConns[g] in s'.conns
      ensures ListedAs(s', s'.conns[s'.clientConns[g]].peer, g)
    {
      if g != fd {
        assert IsConn(s, s.clientConns[g], g, Client);
        assert ListedAs(s, s.conns[s.clientConns[g]].peer, g);
      }
    }
  }

  /** Fewer references and the same connections: what is shared stays exclusive. */
  lemma FewerOpen(s: Tables, s': Tables)
    requires Known(s) && Exclusive(s) && Open(s') <= Open(s) && s'.next == s.next && SameConns(s, s')
    ensures Known(s') && Exclusive(s')
  {
  }

  lemma ValuesShrink<K, V>(m: map<K, V>, ks: set<K>)
    ensures (m - ks).Values <= m.Values
  {
  }

  /** The connection objects are the same, except for their buffers. */
  predicate SameConns(s: Tables, s': Tables) {
    s'.conns.Keys == s.conns.Keys && forall c | c in s.conns :: s'.conns[c] == s.conns[c].(buf := s'.conns[c].buf)
  }

  /** Of all client entries only the connection's own can be under its descriptor or its address. */
  lemma OwnEntries(s: Tables, wired: map<string, seq<int>>, id: Id, fd: int)
    requires Inv(s, wired) && id in Open(s) && s.conns[id].kind.Client? && fd in s.clientConns
    ensures s.clientConns[fd] in s.conns
    ensures s.conns[id].fd == fd || s.conns[id].peer == s.conns[s.clientConns[fd]].peer ==> s.clientConns[fd] == id
  {
    OpenAre(s);
    assert IsConn(s, s.clientConns[fd], fd, Client);
  }

  lemma ClientGoneKeeps(s: Tables, wired: map<string, seq<int>>, id: Id, buf: string)
    requires Inv(s, wired) && id in Open(s) && s.conns[id].kind.Client?
    ensures var c := s.conns[id];
            var s' := WithBuf(s, id, buf);
            Inv(s'.(clientConns := s.clientConns - {c.fd}, clientTable := s.clientTable - {c.peer}), wired)
  {
    var c := s.conns[id];
    var s' := WithBuf(s, id, buf).(clientConns := s.clientConns - {c.fd}, clientTable := s.clientTable - {c.peer});
    ValuesShrink(s.clientConns, {c.fd});
    FewerOpen(s, s');
    forall g | g in s'.clientConns ensures IsConn(s', s'.clientConns[g], g, Client) {
      assert IsConn(s, s.clientConns[g], g, Client);
    }
    forall g | g in s'.serverConns ensures IsConn(s', s'.serverConns[g], g, Server) {
      assert IsConn(s, s.serverConns[g], g, Server);
    }
    ClientGoneKeepsPairs(s, s', wired, id);
  }

  lemma ClientGoneKeepsPairs(s: Tables, s': Tables, wired: map<string, seq<int>>, id: Id)
    requires Inv(s, wired) && id in Open(s) && s.conns[id].kind.Client? && SameConns(s, s')
    requires s'.clientConns == s.clientConns - {s.conns[id].fd} && s'.clientTable == s.clientTable - {s.conns[id].peer}
    ensures Paired(s')
  {
    forall a | a in s'.clientTable ensures IsClient(s', s'.clientTable[a], a) {
      assert IsClient(s, s.clientTable[a], a);
      OwnEntries(s, wired, id, s.clientTable[a]);
    }
    forall g | g in s'.clientConns && s'.clientConns[g] in s'.conns
      ensures ListedAs(s', s'.conns[s'.clientConns[g]].peer, g)
    {
      OwnEntries(s, wired, id, g);
      assert IsConn(s, s.clientConns[g], g, Client);
      assert ListedAs(s, s.conns[s.clientConns[g]].peer, g);
    }
  }

  lemma {:induction false} RemoveFirstAlive(fds: seq<int>, live: set<int>, fd: int)
    requires Distinct(fds)
    ensures RemoveFirst(Alive(fds, live), fd) == Alive(fds, live - {fd})
  {
    if fds != [] {
      var rest := fds[1..];
      if fds[0] == fd {
        assert fd !in rest;
        AliveUnaffected(rest, live, fd);
        AliveAre(rest, live);
        AbsentStays(Alive(rest, live), fd);
        if fd in live { assert ([fd] + Alive(rest, live))[1..] == Alive(rest, live); }
        assert [] + Alive(rest, live) == Alive(rest, live);
      } else {
        RemoveFirstAlive(rest, live, fd);
        if fds[0] in live { HeadStays(fds[0], Alive(rest, live), fd); }
        assert [] + Alive(rest, live) == Alive(rest, live);
      }
    }
  }

  lemma HeadStays(head: int, rest: seq<int>, fd: int)
    requires head != fd
    ensures RemoveFirst([head] + rest, fd) == [head] + RemoveFirst(rest, fd)
  {
    assert ([head] + rest)[1..] == rest;
  }

  lemma {:induction false} AliveUnaffected(fds: seq<int>, live: set<int>, fd: int)
    requires fd !in fds
    ensures Alive(fds, live - {fd}) == Alive(fds, live)
  {
    if fds != [] { AliveUnaffected(fds[1..], live, fd); }
  }

  lemma {:induction false} AbsentStays(fds: seq<int>, fd: int)
    requires fd !in fds
    ensures RemoveFirst(fds, fd) == fds
  {
    if fds != [] { AbsentStays(fds[1..], fd); }
  }

  lemma DisconnectKeeps(s: Tables, wired: map<string, seq<int>>, fd: int)
    requires Inv(s, wired)
    ensures Inv(Disconnect(s, fd), wired)
  {
    var s' := Disconnect(s, fd);
    DisconnectKeepsLists(s, wired, fd);
    ValuesShrink(s.serverConns, {fd});
    hide RemoveFirst, Alive, Wired;
    FewerOpen(s, s');
  }

  lemma DisconnectKeepsLists(s: Tables, wired: map<string, seq<int>>, fd: int)
    requires Wired(s, wired)
    ensures Wired(Disconnect(s, fd), wired)
  {
    var s' := Disconnect(s, fd);
    assert s'.serverConns.Keys == s.serverConns.Keys - {fd};
    forall loc | loc in wired ensures s'.forwarding[loc] == Alive(wired[loc], s'.serverConns.Keys) {
      RemoveFirstAlive(wired[loc], s.serverConns.Keys, fd);
    }
  }

  lemma BufKeeps(s: Tables, wired: map<string, seq<int>>, id: Id, buf: string)
    requires Inv(s, wired) && id in s.conns
    ensures Inv(WithBuf(s, id, buf), wired)
  {
    FewerRefs(s, WithBuf(s, id, buf), wired);
  }

  /** The tables are the same; queue, workers and buffers may differ. */
  predicate SameTables(s: Tables, s': Tables) {
    && s'.queSize == s.queSize && s'.next == s.next && s'.forwarding == s.forwarding && s'.serverConns == s.serverConns
    && s'.clientTable == s.clientTable && s'.clientConns == s.clientConns && SameConns(s, s')
  }

  lemma FewerRefs(s: Tables, s': Tables, wired: map<string, seq<int>>)
    requires Inv(s, wired) && Open(s') <= Open(s) && SameTables(s, s')
    requires |s'.queue| <= |s.queue| || |s'.queue| <= s.queSize
    ensures Inv(s', wired)
  {
    FewerOpen(s, s');
    forall g | g in s'.clientConns ensures IsConn(s', s'.clientConns[g], g, Client) {
      assert IsConn(s, s.clientConns[g], g, Client);
    }
    forall g | g in s'.serverConns ensures IsConn(s', s'.serverConns[g], g, Server) {
      assert IsConn(s, s.serverConns[g], g, Server);
    }
    forall a | a in s'.clientTable ensures IsClient(s', s'.clientTable[a], a) {
      assert IsClient(s, s.clientTable[a], a);
    }
    forall g | g in s'.clientConns && s'.clientConns[g] in s'.conns
      ensures ListedAs(s', s'.conns[s'.clientConns[g]].peer, g)
    {
      assert ListedAs(s, s.conns[s.clientConns[g]].peer, g);
    }
  }

  lemma ClientToServerKeeps(s: Tables, wired: map<string, seq<int>>, id: Id, read: Read)
    requires Inv(s, wired) && id in Open(s) && s.conns[id].kind.Client?
    ensures var (s', sent) := ClientToServer(s, id, read);
            Inv(s', wired) && sent != Crash && s'.busy == s.busy && s'.queue == s.queue
  {
    hide RouteOf, InsertClient, FirstLine, Filed, Paired, Exclusive;
    var buf := s.conns[id].buf + read.data;
    ClientGoneKeeps(s, wired, id, buf);
    BufKeeps(s, wired, id, buf);
    BufKeeps(s, wired, id, "");
    TablesAgree(s, wired);
  }

  lemma ServerToClientKeeps(s: Tables, wired: map<string, seq<int>>, id: Id, read: Read)
    requires Inv(s, wired) && id in Open(s)
    ensures var (s', sent) := ServerToClient(s, id, read);
            Inv(s', wired) && sent != Crash && s'.busy == s.busy && s'.queue == s.queue
  {
    hide ExtractClient, Filed, Exclusive, Wired, Open;
    var s1 := if read.alive then s else Disconnect(s, s.conns[id].fd);
    DisconnectKeeps(s, wired, s.conns[id].fd);
    BufKeeps(s1, wired, id, s.conns[id].buf + read.data);
    BufKeeps(s1, wired, id, "");
  }

  /** Every step keeps the invariant and never uses an entry that is not there, even when a dead
      connection is processed a second time. */
  lemma StepKeeps(s: Tables, wired: map<string, seq<int>>, step: Step)
    requires Inv(s, wired) && Enabled(s, step)
    ensures Inv(Next(s, step).0, wired) && Next(s, step).1 != Crash
  {
    hide Inv, ProcessConn;
    match step {
      case Accept(fd, peer) => AcceptKeeps(s, wired, fd, peer);
      case Event(fd) => EventKeeps(s, wired, fd);
      case Take(w) => TakeKeeps(s, wired, w);
      case Process(w, read) => ProcessKeeps(s, wired, w, read);
    }
  }

  lemma EventKeeps(s: Tables, wired: map<string, seq<int>>, fd: int)
    requires Inv(s, wired) && Enabled(s, Event(fd))
    ensures Inv(Queued(s, fd), wired)
  {
    hide Inv, Open;
    QueuedIsOpen(s, fd);
    FewerRefs(s, Queued(s, fd), wired);
  }

  lemma QueuedIsOpen(s: Tables, fd: int)
    ensures Open(Queued(s, fd)) <= Open(s)
  {
  }

  lemma TakeKeeps(s: Tables, wired: map<string, seq<int>>, w: Worker)
    requires Inv(s, wired) && Enabled(s, Take(w))
    ensures Inv(Next(s, Take(w)).0, wired)
  {
    hide Inv;
    var s' := Next(s, Take(w)).0;
    assert s'.busy.Values <= s.busy.Values + {s.queue[0]};
    FewerRefs(s, s', wired);
  }

  lemma ProcessKeeps(s: Tables, wired: map<string, seq<int>>, w: Worker, read: Read)
    requires Inv(s, wired) && Enabled(s, Process(w, read))
    ensures Inv(Next(s, Process(w, read)).0, wired) && Next(s, Process(w, read)).1 != Crash
  {
    hide ClientToServer, ServerToClient, Inv;
    var id := s.busy[w];
    OpenAre(s);
    if s.conns[id].kind.Client? {
      ClientToServerKeeps(s, wired, id, read);
    } else {
      ServerToClientKeeps(s, wired, id, read);
    }
    var s' := ProcessConn(s, id, read).0;
    ValuesShrink(s'.busy, {w});
    FewerRefs(s', s'.(busy := s'.busy - {w}), wired);
  }

  // ---- Runs ----

  ghost predicate CanTake(s: Tables, steps: seq<Step>)
    decreases |steps|
  {
    steps == [] || (Enabled(s, steps[0]) && CanTake(Next(s, steps[0]).0, steps[1..]))
  }

  ghost function After(s: Tables, steps: seq<Step>): Tables
    requires CanTake(s, steps)
    decreases |steps|
  {
    if steps == [] then s else After(Next(s, steps[0]).0, steps[1..])
  }

  /** What the steps of a run send, in order. */
  ghost function SentBy(s: Tables, steps: seq<Step>): seq<Sent>
    requires CanTake(s, steps)
    decreases |steps|
  {
    if steps == [] then [] else [Next(s, steps[0]).1] + SentBy(Next(s, steps[0]).0, steps[1..])
  }

  /** Socket ownership across descriptor reuse: after any run of steps the tables agree, and no
      step of the run has used a table entry that is not there. */
  lemma {:induction false} RunsKeepTables(s: Tables, wired: map<string, seq<int>>, steps: seq<Step>)
    requires Inv(s, wired) && CanTake(s, steps)
    ensures Inv(After(s, steps), wired) && Crash !in SentBy(s, steps)
    decreases |steps|
  {
    hide Inv, Enabled, Next;
    if steps != [] {
      StepKeeps(s, wired, steps[0]);
      RunsKeepTables(Next(s, steps[0]).0, wired, steps[1..]);
    }
  }

  /** A response goes to the open client connection that owns the address named in it, and
      a request to the open connection of the first live server of its location. */
  lemma SendsToOwner(s: Tables, wired: map<string, seq<int>>, id: Id, read: Read)
    requires Inv(s, wired) && id in Open(s) && ProcessConn(s, id, read).1.Forward?
    ensures var sent, c := ProcessConn(s, id, read).1, s.conns[id];
            var buf := c.buf + read.data;
            if c.kind.Server?
            then sent.text == buf && IsOpen(s, sent.target, Client)
                 && ExtractClient(buf) == Some(s.conns[sent.target].peer)
            else sent.text == InsertClient(buf, c.peer) && IsOpen(s, sent.target, Server)
                 && RoutedTo(s, buf, s.conns[sent.target].fd)
  {
    hide ExtractClient, RouteOf, InsertClient;
    OpenAre(s);
    var sent := ProcessConn(s, id, read).1;
    if s.conns[id].kind.Server? {
      var a := ExtractClient(s.conns[id].buf + read.data).value;
      assert IsClient(s, s.clientTable[a], a);
      assert IsConn(s, sent.target, s.clientTable[a], Client);
    } else {
      var route := RouteOf(FirstLine(s.conns[id].buf + read.data), s.forwarding.Keys).value;
      var fd := s.forwarding[route.businessCode][0];
      assert IsConn(s, s.serverConns[fd], fd, Server);
    }
  }

  predicate IsOpen(s: Tables, id: Id, kind: Kind) {
    id in Open(s) && id in s.conns && s.conns[id].kind == kind
  }

  /** `fd` heads the list of the location that serves the path of the message. */
  predicate RoutedTo(s: Tables, buf: string, fd: int) {
    match RouteOf(FirstLine(buf), s.forwarding.Keys)
    case None => false
    case Some(route) => route.businessCode in s.forwarding && s.forwarding[route.businessCode] != []
                        && s.forwarding[route.businessCode][0] == fd
  }

  /** The message has a location, and one of the servers wired to it is still connected. */
  ghost predicate Forwardable(s: Tables, wired: map<string, seq<int>>, buf: string) {
    exists loc :: loc in wired && RoutesTo(FirstLine(buf), wired.Keys, loc)
                  && exists fd <- wired[loc] :: fd in s.serverConns
  }

  /** Every read of a client that is there is answered at once or forwarded: it is refused with a 404, and nothing is
      sent to a server, exactly when its first line is no GET or POST with a known version and a served path, or all
      servers of its location are gone. The message then stays in the buffer; a forwarded one does not. */
  lemma ClientIsAnswered(s: Tables, wired: map<string, seq<int>>, id: Id, read: Read)
    requires Inv(s, wired) && id in Open(s) && id in s.conns && s.conns[id].kind.Client? && read.alive
    ensures var (s', sent) := ProcessConn(s, id, read);
            var buf := s.conns[id].buf + read.data;
            if Forwardable(s, wired, buf) then sent.Forward? && s' == WithBuf(s, id, "")
            else sent == Refusal(id) && s' == WithBuf(s, id, buf)
  {
    hide RouteOf, InsertClient, FirstLine, RoutesTo, Known, Filed, Paired, Exclusive, Alive;
    var buf := s.conns[id].buf + read.data;
    var route := RouteOf(FirstLine(buf), s.forwarding.Keys);
    ClientToServerKeeps(s, wired, id, read);
    forall loc ensures RoutesTo(FirstLine(buf), wired.Keys, loc) <==> route.Some? && route.value.businessCode == loc {
      RouteIff(FirstLine(buf), wired.Keys, loc);
    }
    forall loc | loc in wired
      ensures s.forwarding[loc] != [] <==> exists fd <- wired[loc] :: fd in s.serverConns
    {
      SomeAlive(wired[loc], s.serverConns.Keys);
    }
  }

  /** Every read of a server: the buffer is forwarded whole, and emptied, exactly when the first address in it is that
      of a client in the table; otherwise nothing is sent and nothing of it is lost. */
  lemma ServerIsForwarded(s: Tables, wired: map<string, seq<int>>, id: Id, read: Read)
    requires Inv(s, wired) && id in Open(s) && id in s.conns && s.conns[id].kind.Server?
    ensures var (s', sent) := ProcessConn(s, id, read);
            var buf := s.conns[id].buf + read.data;
            var client := ExtractClient(buf);
            if client.Some? && client.value in s.clientTable
            then sent == Forward(s.clientConns[s.clientTable[client.value]], buf) && s'.conns[id].buf == ""
            else sent == Nothing && s'.conns[id].buf == buf
  {
    hide ExtractClient, RemoveFirst, Known, Filed, Exclusive, Wired;
    var client := ExtractClient(s.conns[id].buf + read.data);
    if client.Some? && client.value in s.clientTable { assert IsClient(s, s.clientTable[client.value], client.value); }
  }

  /** What a read does to the tables: nothing while the peer is there; a client that has gone loses its two entries, a
      server that has gone its entry and its place in every list; everybody else keeps theirs. */
  lemma GoneLosesItsEntries(s: Tables, wired: map<string, seq<int>>, id: Id, read: Read)
    requires Inv(s, wired) && id in Open(s) && id in s.conns
    ensures var s', c := ProcessConn(s, id, read).0, s.conns[id];
            s'.clientConns == (if !read.alive && c.kind.Client? then s.clientConns - {c.fd} else s.clientConns)
            && s'.clientTable == (if !read.alive && c.kind.Client? then s.clientTable - {c.peer} else s.clientTable)
            && s'.serverConns == (if !read.alive && c.kind.Server? then s.serverConns - {c.fd} else s.serverConns)
            && s'.forwarding.Keys == s.forwarding.Keys
            && forall loc, fd :: loc in s.forwarding ==>
                 (fd in s'.forwarding[loc] <==>
                    fd in s.forwarding[loc] && !(!read.alive && c.kind.Server? && fd == c.fd))
  {
    if s.conns[id].kind.Client? {
      ClientTables(s, id, read);
    } else {
      ServerTables(s, id, read);
      forall loc | loc in wired && !read.alive
        ensures forall fd :: fd in RemoveFirst(s.forwarding[loc], s.conns[id].fd)
                             <==> fd in s.forwarding[loc] && fd != s.conns[id].fd
      {
        RemoveFirstAlive(wired[loc], s.serverConns.Keys, s.conns[id].fd);
        AliveAre(wired[loc], s.serverConns.Keys - {s.conns[id].fd});
        AliveAre(wired[loc], s.serverConns.Keys);
      }
    }
  }

  lemma ClientTables(s: Tables, id: Id, read: Read)
    requires id in s.conns
    ensures var s', c := ClientToServer(s, id, read).0, s.conns[id];
            s'.clientConns == (if !read.alive then s.clientConns - {c.fd} else s.clientConns)
            && s'.clientTable == (if !read.alive then s.clientTable - {c.peer} else s.clientTable)
            && s'.serverConns == s.serverConns && s'.forwarding == s.forwarding
  {
    hide RouteOf, InsertClient, FirstLine;
  }

  lemma ServerTables(s: Tables, id: Id, read: Read)
    requires id in s.conns
    ensures var s', c := ServerToClient(s, id, read).0, s.conns[id];
            s'.clientConns == s.clientConns && s'.clientTable == s.clientTable
            && s'.serverConns == (if !read.alive then s.serverConns - {c.fd} else s.serverConns)
            && s'.forwarding.Keys == s.forwarding.Keys
            && forall loc | loc in s.forwarding ::
                 s'.forwarding[loc] == if !read.alive then RemoveFirst(s.forwarding[loc], c.fd) else s.forwarding[loc]
  {
    hide ExtractClient, RemoveFirst, Disconnect;
    DisconnectIs(s, s.conns[id].fd);
  }

  lemma DisconnectIs(s: Tables, fd: int)
    ensures var s' := Disconnect(s, fd);
            s'.clientConns == s.clientConns && s'.clientTable == s.clientTable && s'.conns == s.conns
            && s'.serverConns == s.serverConns - {fd} && s'.forwarding.Keys == s.forwarding.Keys
            && forall loc | loc in s.forwarding :: s'.forwarding[loc] == RemoveFirst(s.forwarding[loc], fd)
  {
    hide RemoveFirst;
  }

  lemma SomeAlive(fds: seq<int>, live: set<int>)
    ensures Alive(fds, live) != [] <==> exists fd <- fds :: fd in live
  {
    AliveAre(fds, live);
    if Alive(fds, live) != [] {
      var fd := Alive(fds, live)[0];
      assert fd in Alive(fds, live);
      assert fd in fds && fd in live;
    }
  }

  lemma StepKeepsConns(s: Tables, wired: map<string, seq<int>>, step: Step)
    requires Inv(s, wired) && Enabled(s, step)
    ensures KeepsConns(s, Next(s, step).0)
  {
    hide ProcessConn, Filed, Paired, Exclusive, Wired;
    if step.Process? { ProcessTouches(s, s.busy[step.worker], step.read); }
  }

  /** Processing a connection changes no other one's buffer, adds no client, and leaves the workers alone. */
  lemma ProcessTouches(s: Tables, id: Id, read: Read)
    requires id in s.conns
    ensures Touches(s, ProcessConn(s, id, read).0, id)
  {
    if s.conns[id].kind.Server? { ServerTouches(s, id, read); } else { ClientTouches(s, id, read); }
  }

  predicate Touches(s: Tables, s': Tables, id: Id) {
    && id in s.conns && id in s'.conns && s'.conns == s.conns[id := s.conns[id].(buf := s'.conns[id].buf)]
    && s'.clientTable.Keys <= s.clientTable.Keys && s'.busy == s.busy && s'.queue == s.queue
    && s'.queSize == s.queSize && s'.next == s.next
  }

  lemma ServerTouches(s: Tables, id: Id, read: Read)
    requires id in s.conns
    ensures Touches(s, ServerToClient(s, id, read).0, id)
  {
    hide ExtractClient, RemoveFirst;
  }

  lemma ClientTouches(s: Tables, id: Id, read: Read)
    requires id in s.conns
    ensures Touches(s, ClientToServer(s, id, read).0, id)
  {
    hide RouteOf, InsertClient, FirstLine;
  }

  /** Connection objects stay what they are; only buffers change. */
  predicate KeepsConns(s: Tables, s': Tables) {
    forall c | c in s.conns :: c in s'.conns && s'.conns[c] == s.conns[c].(buf := s'.conns[c].buf)
  }

  lemma {:induction false} RunsKeepConns(s: Tables, wired: map<string, seq<int>>, steps: seq<Step>)
    requires Inv(s, wired) && CanTake(s, steps)
    ensures KeepsConns(s, After(s, steps))
    decreases |steps|
  {
    hide Inv, Enabled, Next;
    if steps != [] {
      StepKeeps(s, wired, steps[0]);
      StepKeepsConns(s, wired, steps[0]);
      RunsKeepConns(Next(s, steps[0]).0, wired, steps[1..]);
    }
  }

  /** A server connection is never filed again: what is still filed is filed as it was. */
  predicate KeepsFiled(s: Tables, s': Tables) {
    forall fd | fd in s'.serverConns :: fd in s.serverConns && s'.serverConns[fd] == s.serverConns[fd]
  }

  lemma {:induction false} RunsKeepFiled(s: Tables, wired: map<string, seq<int>>, steps: seq<Step>)
    requires Inv(s, wired) && CanTake(s, steps)
    ensures KeepsFiled(s, After(s, steps))
    decreases |steps|
  {
    hide Inv, Enabled, Next;
    if steps != [] {
      StepKeeps(s, wired, steps[0]);
      StepKeepsFiled(s, steps[0]);
      RunsKeepFiled(Next(s, steps[0]).0, wired, steps[1..]);
    }
  }

  lemma StepKeepsFiled(s: Tables, step: Step)
    requires Enabled(s, step)
    ensures KeepsFiled(s, Next(s, step).0)
  {
    hide ClientToServer, ServerToClient;
    if step.Process? {
      ClientTables(s, s.busy[step.worker], step.read);
      ServerTables(s, s.busy[step.worker], step.read);
    }
  }

  // ---- A response whose client is gone ----

  /** The buffer of the server connection `id` starts with a response whose client is not there. */
  predicate Stale(s: Tables, id: Id, client: string) {
    id in s.conns && s.conns[id].kind.Server? && ExtractClient(s.conns[id].buf) == Some(client)
    && client !in s.clientTable
  }

  /** The reads of one connection during a run, and what they send. */
  ghost function ReadsOf(s: Tables, steps: seq<Step>, id: Id): seq<(string, Sent)>
    requires CanTake(s, steps)
    decreases |steps|
  {
    if steps == [] then [] else
    var (s', sent) := Next(s, steps[0]);
    (if steps[0].Process? && s.busy[steps[0].worker] == id then [(steps[0].read.data, sent)] else [])
      + ReadsOf(s', steps[1..], id)
  }

  /** All the bytes that were read. */
  function BytesOf(got: seq<(string, Sent)>): string {
    if got == [] then "" else got[0].0 + BytesOf(got[1..])
  }

  lemma StaleStep(s: Tables, wired: map<string, seq<int>>, step: Step, id: Id, client: string)
    requires Inv(s, wired) && Enabled(s, step) && Stale(s, id, client)
    requires step.Accept? ==> step.peer != client
    ensures var (s', sent) := Next(s, step);
            Stale(s', id, client)
            && if step.Process? && s.busy[step.worker] == id
               then sent == Nothing && s'.conns[id].buf == s.conns[id].buf + step.read.data
               else s'.conns[id].buf == s.conns[id].buf
  {
    hide ExtractClient, ProcessConn, Filed, Paired, Exclusive, Wired;
    if step.Process? {
      ProcessTouches(s, s.busy[step.worker], step.read);
      StaleRead(s, id, client, step.read);
    }
  }

  lemma StaleRead(s: Tables, id: Id, client: string, read: Read)
    requires Stale(s, id, client)
    ensures var (s', sent) := ProcessConn(s, id, read);
            Stale(s', id, client) && sent == Nothing && s'.conns[id].buf == s.conns[id].buf + read.data
  {
    hide ExtractClient;
    ExtractIsStable(s.conns[id].buf, read.data);
  }

  /** Once the address at the front of a server's buffer has no owner, nothing that server sends is
      forwarded until a client with that very address connects: the responses of all other clients
      pile up behind it. */
  lemma {:induction false} StaleResponseBlocks(
    s: Tables, wired: map<string, seq<int>>, steps: seq<Step>, id: Id, client: string)
    requires Inv(s, wired) && CanTake(s, steps) && Stale(s, id, client)
    requires forall step <- steps :: step.Accept? ==> step.peer != client
    ensures var e, got := After(s, steps), ReadsOf(s, steps, id);
            Stale(e, id, client) && e.conns[id].buf == s.conns[id].buf + BytesOf(got)
            && forall r <- got :: r.1 == Nothing
    decreases |steps|
  {
    hide Inv, Enabled, Next, ExtractClient;
    if steps == [] {
      assert s.conns[id].buf + "" == s.conns[id].buf;
    } else {
      assert steps[0] in steps;
      StepKeeps(s, wired, steps[0]);
      StaleStep(s, wired, steps[0], id, client);
      BusyTaken(s, steps[0]);
      var (s', sent) := Next(s, steps[0]);
      StaleResponseBlocks(s', wired, steps[1..], id, client);
      if steps[0].Process? && s.busy[steps[0].worker] == id {
        BytesFirst(steps[0].read.data, sent, ReadsOf(s', steps[1..], id));
        Assoc(s.conns[id].buf, steps[0].read.data, BytesOf(ReadsOf(s', steps[1..], id)));
      } else {
        assert [] + ReadsOf(s', steps[1..], id) == ReadsOf(s', steps[1..], id);
      }
    }
  }

  lemma BusyTaken(s: Tables, step: Step)
    requires Enabled(s, step)
    ensures step.Process? ==> step.worker in s.busy
  {
  }

  lemma BytesFirst(data: string, sent: Sent, got: seq<(string, Sent)>)
    ensures BytesOf([(data, sent)] + got) == data + BytesOf(got)
  {
    assert ([(data, sent)] + got)[1..] == got;
  }

  lemma {:induction false} RunsJoin(s: Tables, a: seq<Step>, b: seq<Step>)
    requires CanTake(s, a) && CanTake(After(s, a), b)
    ensures CanTake(s, a + b) && After(s, a + b) == After(After(s, a), b)
    decreases |a|
  {
    hide Enabled, Next;
    if a == [] {
      assert a + b == b;
    } else {
      assert (a + b)[0] == a[0] && (a + b)[1..] == a[1..] + b;
      RunsJoin(Next(s, a[0]).0, a[1..], b);
    }
  }

  /** An event on `fd` is queued, taken by `w` and processed. */
  function Turn(fd: int, w: Worker, read: Read): seq<Step> {
    [Event(fd), Take(w), Process(w, read)]
  }

  predicate Owns(s: Tables, fd: int, id: Id) {
    id in s.conns
    && if fd in s.clientConns then s.clientConns[fd] == id else fd in s.serverConns && s.serverConns[fd] == id
  }

  /** Which connections the other workers have does not matter. */
  lemma ProcessMoves(s: Tables, busy: map<Worker, Id>, id: Id, read: Read)
    requires id in s.conns
    ensures var (s', sent) := ProcessConn(s, id, read);
            ProcessConn(s.(busy := busy), id, read) == (s'.(busy := busy), sent)
  {
    if s.conns[id].kind.Server? { ServerMoves(s, busy, id, read); } else { ClientMoves(s, busy, id, read); }
  }

  lemma ServerMoves(s: Tables, busy: map<Worker, Id>, id: Id, read: Read)
    requires id in s.conns
    ensures var (s', sent) := ServerToClient(s, id, read);
            ServerToClient(s.(busy := busy), id, read) == (s'.(busy := busy), sent)
  {
    hide ExtractClient, RemoveFirst;
  }

  lemma ClientMoves(s: Tables, busy: map<Worker, Id>, id: Id, read: Read)
    requires id in s.conns
    ensures var (s', sent) := ClientToServer(s, id, read);
            ClientToServer(s.(busy := busy), id, read) == (s'.(busy := busy), sent)
  {
    hide RouteOf, InsertClient, FirstLine;
  }

  lemma TurnIs(s: Tables, fd: int, w: Worker, read: Read, id: Id)
    requires s.queue == [] && s.queSize > 0 && w !in s.busy && Owns(s, fd, id)
    ensures CanTake(s, Turn(fd, w, read)) && After(s, Turn(fd, w, read)) == ProcessConn(s, id, read).0
  {
    hide ProcessConn;
    var steps := Turn(fd, w, read);
    var s1 := s.(queue := [id]);
    var s2 := s.(busy := s.busy[w := id]);
    var s3 := ProcessConn(s, id, read).0;
    ProcessMoves(s, s2.busy, id, read);
    ProcessTouches(s, id, read);
    assert s.busy[w := id] - {w} == s.busy;
    assert s3.(busy := s2.busy).(busy := s2.busy - {w}) == s3;
    OneMore(s2, steps[2], [], s3);
    OneMore(s1, steps[1], [steps[2]], s2);
    OneMore(s, steps[0], [steps[1], steps[2]], s1);
  }

  lemma OneMore(s: Tables, step: Step, rest: seq<Step>, s': Tables)
    requires Enabled(s, step) && Next(s, step).0 == s' && CanTake(s', rest)
    ensures CanTake(s, [step] + rest) && After(s, [step] + rest) == After(s', rest)
  {
    assert ([step] + rest)[1..] == rest;
  }

  /** A client that comes, sends something, and goes. */
  lemma ClientVisits(s: Tables, fd: int, peer: string, w: Worker, request: string)
    requires s.next !in s.conns && fd !in s.clientConns && fd !in s.serverConns && Enabled(s, Accept(fd, peer))
    requires s.queue == [] && s.queSize > 0 && w !in s.busy
    ensures var steps := [Accept(fd, peer)] + (Turn(fd, w, Read(request, true)) + Turn(fd, w, Read("", false)));
            CanTake(s, steps)
            && var e := After(s, steps);
               peer !in e.clientTable && e.serverConns == s.serverConns && fd !in e.clientConns
               && e.clientConns.Keys <= s.clientConns.Keys && e.queue == [] && e.queSize == s.queSize
               && w !in e.busy && forall c | c in s.conns :: c in e.conns && e.conns[c] == s.conns[c]
  {
    hide ProcessConn, Enabled, Owns;
    var s1 := Accepted(s, fd, peer);
    var s2 := ProcessConn(s1, s.next, Read(request, true)).0;
    OwnsNew(s, fd, peer);
    TurnIs(s1, fd, w, Read(request, true), s.next);
    ClientStays(s1, s.next, request);
    TurnIs(s2, fd, w, Read("", false), s.next);
    ClientGoes(s2, s.next);
    RunsJoin(s1, Turn(fd, w, Read(request, true)), Turn(fd, w, Read("", false)));
    AcceptIs(s, fd, peer);
    OneMore(s, Accept(fd, peer), Turn(fd, w, Read(request, true)) + Turn(fd, w, Read("", false)), s1);
  }

  lemma AcceptIs(s: Tables, fd: int, peer: string)
    requires Enabled(s, Accept(fd, peer))
    ensures Next(s, Accept(fd, peer)).0 == Accepted(s, fd, peer)
  {
  }

  lemma OwnsNew(s: Tables, fd: int, peer: string)
    requires fd !in s.clientConns
    ensures Owns(Accepted(s, fd, peer), fd, s.next)
  {
  }

  lemma ClientStays(s: Tables, id: Id, data: string)
    requires id in s.conns && s.conns[id].kind.Client?
    ensures var s' := ProcessConn(s, id, Read(data, true)).0;
            s' == WithBuf(s, id, s'.conns[id].buf) && forall fd :: Owns(s, fd, id) ==> Owns(s', fd, id)
  {
    hide RouteOf, InsertClient, FirstLine;
  }

  lemma ClientGoes(s: Tables, id: Id)
    requires id in s.conns && s.conns[id].kind.Client?
    ensures var s', c := ProcessConn(s, id, Read("", false)).0, s.conns[id];
            s' == WithBuf(s, id, c.buf + "")
                    .(clientConns := s.clientConns - {c.fd}, clientTable := s.clientTable - {c.peer})
  {
  }

  /** Such a state is reached: the client goes before the response to it comes. */
  lemma StaleIsReached(s: Tables, wired: map<string, seq<int>>, client: int, peer: string, server: int, w: Worker,
                       request: string, response: string) returns (steps: seq<Step>)
    requires Inv(s, wired) && s.queue == [] && s.queSize > 0 && w !in s.busy && Enabled(s, Accept(client, peer))
    requires server in s.serverConns && s.serverConns[server] in s.conns && s.conns[s.serverConns[server]].buf == ""
    requires ExtractClient(response) == Some(peer)
    ensures CanTake(s, steps) && Stale(After(s, steps), s.serverConns[server], peer)
  {
    hide Inv, Enabled, ProcessConn, CanTake, After, ExtractClient;
    var id := s.serverConns[server];
    AcceptIsFresh(s, wired, client, peer);
    TablesAgree(s, wired);
    ClientVisits(s, client, peer, w, request);
    var visit := [Accept(client, peer)] + (Turn(client, w, Read(request, true)) + Turn(client, w, Read("", false)));
    var e := After(s, visit);
    ServerIs(s, wired, server);
    TurnIs(e, server, w, Read(response, true), id);
    ResponseWaits(e, id, peer, response);
    RunsJoin(s, visit, Turn(server, w, Read(response, true)));
    steps := visit + Turn(server, w, Read(response, true));
  }

  lemma ServerIs(s: Tables, wired: map<string, seq<int>>, fd: int)
    requires Inv(s, wired) && fd in s.serverConns
    ensures IsConn(s, s.serverConns[fd], fd, Server)
  {
  }

  lemma ResponseWaits(s: Tables, id: Id, peer: string, response: string)
    requires id in s.conns && s.conns[id].kind.Server? && s.conns[id].buf == "" && peer !in s.clientTable
    requires ExtractClient(response) == Some(peer)
    ensures Stale(ProcessConn(s, id, Read(response, true)).0, id, peer)
  {
    hide ExtractClient;
    assert "" + response == response;
  }
}
