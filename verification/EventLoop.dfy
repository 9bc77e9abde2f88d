/** The event loop and its workers: the same tables as fields that the source's methods update. */
module EventLoops {
  import opened Sequences
  import opened Options
  import opened Bytes
  import opened Routing
  import opened Configs
  import opened ConnectionTables
  import TaskQueues

  function EndpointText(e: Endpoint): string {
    e.0 + ":" + e.1
  }

  /** The servers a location is configured with: those of the upstream its target names. */
  function ServersFor(c: Config, loc: string): seq<Endpoint>
    requires loc in c.locations && |c.locations[loc].proxyPass| >= 7
  {
    UpstreamAt(c, c.locations[loc].proxyPass[7..]).servers
  }

  /** The target is long enough to cut "http://" from, and the ports of its servers are numbers. */
  predicate Targets(c: Config, loc: string) {
    loc in c.locations && |c.locations[loc].proxyPass| >= 7
    && forall e: Endpoint <- ServersFor(c, loc) :: Stoi(e.1).Some?
  }

  predicate Targeted(c: Config) {
    forall loc | loc in c.locations :: Targets(c, loc)
  }

  /** `fd` is a server connection to the endpoint `e`. */
  predicate ServesAs(s: Tables, fd: int, e: Endpoint) {
    fd in s.serverConns && s.serverConns[fd] in s.conns && s.conns[s.serverConns[fd]].peer == EndpointText(e)
  }

  predicate ListServes(s: Tables, fds: seq<int>, servers: seq<Endpoint>) {
    |fds| <= |servers| && Distinct(fds) && forall j | 0 <= j < |fds| :: ServesAs(s, fds[j], servers[j])
  }

  predicate Lists(s: Tables, c: Config, loc: string) {
    && loc in c.locations && |c.locations[loc].proxyPass| >= 7 && loc in s.forwarding
    && |s.forwarding[loc]| == |ServersFor(c, loc)| && ListServes(s, s.forwarding[loc], ServersFor(c, loc))
  }

  /** Every location lists one connection for each of its configured servers, in configured order. */
  predicate WiredTo(s: Tables, c: Config) {
    s.forwarding.Keys == c.locations.Keys && forall loc | loc in s.forwarding :: Lists(s, c, loc)
  }

  /** Only servers have been connected to so far, the k-th under the k-th descriptor. */
  ghost predicate ServersOnly(s: Tables, connect: nat -> int) {
    && s.clientTable == map[] && s.clientConns == map[] && s.queue == [] && s.busy == map[]
    && s.serverConns.Values <= s.conns.Keys
    && (forall i: nat :: i in s.conns <==> i < s.next)
    && (forall i: nat | i < s.next :: s.conns[i].fd == connect(i) && s.conns[i].kind.Server? && s.conns[i].buf == "")
    && (forall fd | fd in s.serverConns :: s.serverConns[fd] < s.next && connect(s.serverConns[fd]) == fd)
  }

  function Connected(s: Tables, fd: int, e: Endpoint): Tables {
    s.(conns := s.conns[s.next := Conn(fd, Server, EndpointText(e), "")],
       serverConns := s.serverConns[fd := s.next], next := s.next + 1)
  }

  lemma ConnectKeeps(s: Tables, connect: nat -> int, e: Endpoint)
    requires ServersOnly(s, connect) && forall i: nat, j: nat :: connect(i) == connect(j) ==> i == j
    ensures ServersOnly(Connected(s, connect(s.next), e), connect)
    ensures connect(s.next) !in s.serverConns
    ensures forall fd, e' :: ServesAs(s, fd, e') ==> ServesAs(Connected(s, connect(s.next), e), fd, e')
    ensures ServesAs(Connected(s, connect(s.next), e), connect(s.next), e)
  {
    var s' := Connected(s, connect(s.next), e);
    assert s'.serverConns.Values <= s.serverConns.Values + {s.next};
  }

  /** The loop over the locations: those in `rest` are still to come. */
  ghost predicate Wiring(s: Tables, c: Config, rest: set<string>, connect: nat -> int) {
    ServersOnly(s, connect) && s.forwarding.Keys == c.locations.Keys - rest
    && forall l | l in s.forwarding :: Lists(s, c, l)
  }

  lemma NothingConnected(s: Tables, c: Config, connect: nat -> int)
    requires s == Empty(s.queSize)
    ensures Wiring(s, c, c.locations.Keys, connect)
  {
  }

  lemma NothingListed(s: Tables, servers: seq<Endpoint>)
    ensures ListServes(s, [], servers)
  {
  }

  /** Only the connections decide what a descriptor serves as. */
  lemma SameServes(s: Tables, s': Tables)
    requires s' == s.(forwarding := s'.forwarding)
    ensures forall connect :: ServersOnly(s, connect) ==> ServersOnly(s', connect)
    ensures forall fds, servers :: ListServes(s, fds, servers) ==> ListServes(s', fds, servers)
  {
  }

  function WithServerAt(s: Tables, loc: string, fd: int, e: Endpoint): Tables
    requires loc in s.forwarding
  {
    Connected(s, fd, e).(forwarding := s.forwarding[loc := s.forwarding[loc] + [fd]])
  }

  /** The list of `loc` is being filled; the others, except for those in `rest`, are complete. */
  ghost predicate Filling(s: Tables, c: Config, loc: string, rest: set<string>, connect: nat -> int) {
    && ServersOnly(s, connect) && s.forwarding.Keys == c.locations.Keys - (rest - {loc})
    && loc in c.locations && |c.locations[loc].proxyPass| >= 7 && loc in s.forwarding
    && ListServes(s, s.forwarding[loc], ServersFor(c, loc))
    && forall l | l in s.forwarding && l != loc :: Lists(s, c, l)
  }

  lemma Emptied(s: Tables, s': Tables, c: Config, loc: string, rest: set<string>, connect: nat -> int)
    requires Wiring(s, c, rest, connect) && loc in rest && loc in c.locations && |c.locations[loc].proxyPass| >= 7
    requires s' == s.(forwarding := s.forwarding[loc := []])
    ensures Filling(s', c, loc, rest, connect)
  {
    hide ServersOnly, ListServes;
    SameServes(s, s');
    NothingListed(s', ServersFor(c, loc));
    forall l | l in s'.forwarding && l != loc ensures Lists(s', c, l) {
      assert Lists(s, c, l);
    }
  }

  lemma Filled(s: Tables, c: Config, loc: string, rest: set<string>, connect: nat -> int)
    requires Filling(s, c, loc, rest, connect) && |s.forwarding[loc]| == |ServersFor(c, loc)|
    ensures Wiring(s, c, rest - {loc}, connect)
  {
    hide ServersOnly, ListServes;
  }

  lemma OneMoreServer(s: Tables, c: Config, loc: string, rest: set<string>, connect: nat -> int)
    requires Filling(s, c, loc, rest, connect) && forall i: nat, j: nat :: connect(i) == connect(j) ==> i == j
    requires |s.forwarding[loc]| < |ServersFor(c, loc)|
    ensures var e := ServersFor(c, loc)[|s.forwarding[loc]|];
            Filling(WithServerAt(s, loc, connect(s.next), e), c, loc, rest, connect)
  {
    hide ServersOnly, ServersFor;
    var fds, fd, servers := s.forwarding[loc], connect(s.next), ServersFor(c, loc);
    var e := servers[|fds|];
    var s' := WithServerAt(s, loc, fd, e);
    ConnectKeeps(s, connect, e);
    SameServes(Connected(s, fd, e), s');
    assert forall g, e' :: ServesAs(Connected(s, fd, e), g, e') <==> ServesAs(s', g, e');
    ListGrows(s, s', fds, fd, servers);
    forall l | l in s'.forwarding && l != loc ensures Lists(s', c, l) {
      assert Lists(s, c, l);
    }
  }

  lemma {:induction false} AllAlive(fds: seq<int>, live: set<int>)
    requires forall i :: 0 <= i < |fds| ==> fds[i] in live
    ensures Alive(fds, live) == fds
  {
    if fds != [] {
      assert fds == [fds[0]] + fds[1..];
      AllAlive(fds[1..], live);
    }
  }

  lemma StartIsValid(s: Tables, connect: nat -> int, c: Config)
    requires Wiring(s, c, {}, connect) && forall i: nat, j: nat :: connect(i) == connect(j) ==> i == j
    ensures Inv(s, s.forwarding) && ServersOnly(s, connect) && WiredTo(s, c)
  {
    forall loc | loc in s.forwarding ensures s.forwarding[loc] == Alive(s.forwarding[loc], s.serverConns.Keys) {
      assert Lists(s, c, loc);
      forall j | 0 <= j < |s.forwarding[loc]| ensures s.forwarding[loc][j] in s.serverConns {
        assert ServesAs(s, s.forwarding[loc][j], ServersFor(c, loc)[j]);
      }
      AllAlive(s.forwarding[loc], s.serverConns.Keys);
    }
    assert forall loc | loc in s.forwarding :: Lists(s, c, loc);
    assert Open(s) == s.serverConns.Values;
  }

  class EventLoop {
    var conns: map<Id, Conn>
    var next: Id
    var forwarding: map<string, seq<int>>
    var serverConns: map<int, Id>
    var clientTable: map<string, int>
    var clientConns: map<int, Id>
    const requests: TaskQueues.TaskQueue<Id>   // the thread pool's queue
    var busy: map<Worker, Id>
    ghost var wired: map<string, seq<int>>

    ghost function View(): Tables
      reads this, requests
    {
      Tables(conns, next, forwarding, serverConns, clientTable, clientConns, requests.queSize, requests.que, busy)
    }

    /** Before shutdown. */
    ghost predicate Valid()
      reads this, requests
    {
      Inv(View(), wired) && requests.flag
    }

    constructor (queSize: nat)
      ensures Valid() && View() == Empty(queSize) && fresh(requests)
    {
      conns, next, forwarding, serverConns := map[], 0, map[], map[];
      clientTable, clientConns, busy, wired := map[], map[], map[], map[];
      requests := new TaskQueues.TaskQueue<Id>(queSize);
    }

    /** `connect(k)` is the descriptor of the k-th connection made; all of them stay open, so the
        kernel gives each a different one. The source throws when a target is too short or a port is no
        number. */
    method ConnectToBusinessServer(config: Config, connect: nat -> int) returns (ok: bool)
      requires View() == Empty(requests.queSize) && requests.flag
      requires forall i: nat, j: nat :: connect(i) == connect(j) ==> i == j
      modifies this
      ensures ok <==> Targeted(config)
      ensures ok ==> Valid() && ServersOnly(View(), connect)
      ensures ok ==> wired == forwarding && WiredTo(View(), config)
      ensures ok ==> forall loc, n |
                loc in config.locations && n in config.upstreams && config.locations[loc].proxyPass == "http://" + n ::
                loc in wired && ServedBy(View(), wired[loc], config.upstreams[n].servers)
    {
      hide ServersOnly, Wiring, WiredTo, Inv, Targets;
      var rest := config.locations.Keys;
      NothingConnected(View(), config, connect);
      while rest != {}
        invariant rest <= config.locations.Keys && requests.flag
        invariant forall loc | loc in config.locations && loc !in rest :: Targets(config, loc)
        invariant Wiring(View(), config, rest, connect)
        decreases |rest|
      {
        var loc :| loc in rest;
        ok := ConnectLocation(config, loc, rest, connect);
        if !ok { return; }
        rest := rest - {loc};
      }
      wired := forwarding;
      StartIsValid(View(), connect, config);
      AllWiredAsConfigured(View(), config);
      ok := true;
    }

    /** The inner loop: one connection for every server of the location's upstream. */
    method ConnectLocation(config: Config, loc: string, ghost rest: set<string>, connect: nat -> int)
      returns (ok: bool)
      requires Wiring(View(), config, rest, connect) && forall i: nat, j: nat :: connect(i) == connect(j) ==> i == j
      requires loc in rest && loc in config.locations
      modifies this
      ensures ok <==> Targets(config, loc)
      ensures ok ==> Wiring(View(), config, rest - {loc}, connect)
    {
      hide Wiring, ListServes, Filling, UpstreamAt, Stoi;
      if |config.locations[loc].proxyPass| < 7 { return false; }
      var servers := ServersFor(config, loc);
      forwarding := forwarding[loc := []];
      Emptied(old(View()), View(), config, loc, rest, connect);
      var j := 0;
      while j < |servers|
        invariant 0 <= j <= |servers|
        invariant Filling(View(), config, loc, rest, connect)
        invariant loc in forwarding && |forwarding[loc]| == j
        invariant forall k :: 0 <= k < j ==> Stoi(servers[k].1).Some?
      {
        if Stoi(servers[j].1) == None { return false; }
        ghost var before := View();
        var fd := connect(next);
        OneMoreServer(before, config, loc, rest, connect);
        forwarding := forwarding[loc := forwarding[loc] + [fd]];
        conns := conns[next := Conn(fd, Server, EndpointText(servers[j]), "")];
        serverConns := serverConns[fd := next];
        next := next + 1;
        j := j + 1;
      }
      Filled(View(), config, loc, rest, connect);
      ok := true;
    }

    /** The kernel has accepted a connection from `peer` under `fd`. */
    method HandleNewConnection(fd: int, peer: string)
      requires Valid() && Enabled(View(), Accept(fd, peer))
      modifies this
      ensures Valid() && wired == old(wired) && View() == Next(old(View()), Accept(fd, peer)).0
      ensures clientConns == old(clientConns)[fd := old(next)] && clientTable == old(clientTable)[peer := fd]
      ensures conns == old(conns)[old(next) := Conn(fd, Client, peer, "")]
    {
      hide Inv, Open;
      AcceptIsFresh(View(), wired, fd, peer);
      StepKeeps(View(), wired, Accept(fd, peer));
      var conn := next;
      conns := conns[conn := Conn(fd, Client, peer, "")];
      next := next + 1;
      clientConns := clientConns[fd := conn];
      clientTable := clientTable[peer := fd];
    }

    /** Queueing waits until the queue has room: this is the turn in which it has. */
    method HandleMessage(fd: int)
      requires Valid() && Enabled(View(), Event(fd))
      modifies requests
      ensures Valid() && View() == Next(old(View()), Event(fd)).0
      ensures requests.que == old(requests.que) + if fd in clientConns then [clientConns[fd]]
                                                  else if fd in serverConns then [serverConns[fd]] else []
    {
      StepKeeps(View(), wired, Event(fd));
      if fd in clientConns {
        var wait := requests.PushTurn(clientConns[fd]);
      } else if fd in serverConns {
        var wait := requests.PushTurn(serverConns[fd]);
      }
    }

    method TakeRequest(w: Worker)
      requires Valid() && Enabled(View(), Take(w))
      modifies this, requests
      ensures Valid() && wired == old(wired) && View() == Next(old(View()), Take(w)).0
      ensures old(requests.que) == [busy[w]] + requests.que && busy - {w} == old(busy)
    {
      hide Inv;
      StepKeeps(View(), wired, Take(w));
      var r := requests.PopTurn();
      busy := busy[w := r.value];
    }

    /** A worker processes its connection and then lets go of it. */
    method ProcessRequest(w: Worker, read: Read) returns (sent: Sent)
      requires Valid() && Enabled(View(), Process(w, read))
      modifies this
      ensures Valid() && wired == old(wired)
      ensures (View(), sent) == Next(old(View()), Process(w, read)) && sent != Crash
    {
      hide ClientToServer, ServerToClient;
      StepKeeps(View(), wired, Process(w, read));
      var id := busy[w];
      if conns[id].kind == Server {
        sent := DoServerToClient(id, read);
      } else {
        sent := DoClientToServer(id, read);
      }
      busy := busy - {w};
    }

    method DoServerToClient(id: Id, read: Read) returns (sent: Sent)
      requires id in conns
      modifies this
      ensures (View(), sent) == ServerToClient(old(View()), id, read) && wired == old(wired)
    {
      hide ExtractClient;
      var c := conns[id];
      var buf := c.buf + read.data;
      if !read.alive {
        DropServer(c.fd);
        AllDropped(old(View()), c.fd);
      }
      conns := conns[id := c.(buf := buf)];
      var client := ExtractClient(buf);
      if client == None || client.value !in clientTable { return Nothing; }
      var fd := clientTable[client.value];
      if fd !in clientConns { return Crash; }
      assert conns[id := c.(buf := "")] == old(conns)[id := c.(buf := "")];
      conns := conns[id := c.(buf := "")];
      sent := Forward(clientConns[fd], buf);
    }

    /** Erases a dead server and its place in every list of the forwarding table. */
    method DropServer(fd: int)
      modifies this`serverConns, this`forwarding
      ensures serverConns == old(serverConns) - {fd} && forwarding == Dropped(old(forwarding), {}, fd)
    {
      hide Dropped, RemoveFirst;
      serverConns := serverConns - {fd};
      ghost var full := forwarding;
      var rest := forwarding.Keys;
      NothingDropped(full, fd);
      while rest != {}
        invariant rest <= full.Keys && forwarding.Keys == full.Keys
        invariant forwarding == Dropped(full, rest, fd)
        invariant serverConns == old(serverConns) - {fd}
        decreases |rest|
      {
        var loc :| loc in rest;
        DropOne(full, rest, loc, fd);
        forwarding := forwarding[loc := RemoveFirst(forwarding[loc], fd)];
        rest := rest - {loc};
      }
    }

    method DoClientToServer(id: Id, read: Read) returns (sent: Sent)
      requires id in conns
      modifies this
      ensures (View(), sent) == ClientToServer(old(View()), id, read) && wired == old(wired)
    {
      hide RouteOf, InsertClient, FirstLine;
      var c := conns[id];
      var buf := c.buf + read.data;
      conns := conns[id := c.(buf := buf)];
      if !read.alive {
        clientConns := clientConns - {c.fd};
        clientTable := clientTable - {c.peer};
        return Nothing;
      }
      var ok, path, businessCode := ParseRequestLine(FirstLine(buf), forwarding);
      if !ok { return Refusal(id); }
      var message := InsertClient(buf, c.peer);
      if businessCode !in forwarding || forwarding[businessCode] == [] { return Refusal(id); }
      var fd := forwarding[businessCode][0];
      if fd !in serverConns { return Crash; }
      assert conns[id := c.(buf := "")] == old(conns)[id := c.(buf := "")];
      conns := conns[id := c.(buf := "")];
      sent := Forward(serverConns[fd], message);
    }
  }

  /** The forwarding table when the locations in `rest` are still to be cleaned. */
  function Dropped(full: map<string, seq<int>>, rest: set<string>, fd: int): map<string, seq<int>> {
    map loc | loc in full :: if loc in rest then full[loc] else RemoveFirst(full[loc], fd)
  }

  lemma NothingDropped(full: map<string, seq<int>>, fd: int)
    ensures Dropped(full, full.Keys, fd) == full
  {
  }

  lemma DropOne(full: map<string, seq<int>>, rest: set<string>, loc: string, fd: int)
    requires loc in rest && loc in full
    ensures loc in Dropped(full, rest, fd) && Dropped(full, rest, fd).Keys == full.Keys
    ensures var before := Dropped(full, rest, fd);
            Dropped(full, rest - {loc}, fd) == before[loc := RemoveFirst(before[loc], fd)]
  {
  }

  lemma AllDropped(s: Tables, fd: int)
    ensures Disconnect(s, fd) == s.(serverConns := s.serverConns - {fd}, forwarding := Dropped(s.forwarding, {}, fd))
  {
  }

  lemma ListGrows(s: Tables, s': Tables, fds: seq<int>, fd: int, servers: seq<Endpoint>)
    requires ListServes(s, fds, servers) && |fds| < |servers| && fd !in s.serverConns
    requires forall g, e :: ServesAs(s, g, e) ==> ServesAs(s', g, e)
    requires ServesAs(s', fd, servers[|fds|])
    ensures ListServes(s', fds + [fd], servers)
  {
    assert forall j | 0 <= j < |fds| :: ServesAs(s, fds[j], servers[j]);
  }

  // ---- Failover, from the configuration to the request ----

  /** The descriptors are those of open connections to the endpoints, one each, in order. */
  predicate ServedBy(s: Tables, fds: seq<int>, servers: seq<Endpoint>) {
    |fds| == |servers|
    && forall j | 0 <= j < |fds| :: fds[j] in s.serverConns && PeerIs(s, s.serverConns[fds[j]], servers[j])
  }

  predicate PeerIs(s: Tables, id: Id, e: Endpoint) {
    id in s.conns && s.conns[id].peer == e.0 + ":" + e.1
  }

  /** The connections made for a location are those of the servers of the upstream its target names, one each, in the
      order of the configuration; whatever stands where "http://" should, seven bytes are cut. */
  lemma WiredAsConfigured(s: Tables, c: Config, loc: string, prefix: string, n: string)
    requires WiredTo(s, c) && loc in c.locations && c.locations[loc].proxyPass == prefix + n && |prefix| == 7
    ensures loc in s.forwarding
    ensures ServedBy(s, s.forwarding[loc], if n in c.upstreams then c.upstreams[n].servers else [])
  {
    assert (prefix + n)[7..] == n;
    assert Lists(s, c, loc);
    assert forall j | 0 <= j < |s.forwarding[loc]| :: ServesAs(s, s.forwarding[loc][j], ServersFor(c, loc)[j]);
  }

  lemma AllWiredAsConfigured(s: Tables, c: Config)
    requires WiredTo(s, c)
    ensures forall loc, n | loc in c.locations && n in c.upstreams && c.locations[loc].proxyPass == "http://" + n ::
              loc in s.forwarding && ServedBy(s, s.forwarding[loc], c.upstreams[n].servers)
  {
    hide WiredTo, ServedBy;
    forall loc, n | loc in c.locations && n in c.upstreams && c.locations[loc].proxyPass == "http://" + n
      ensures loc in s.forwarding && ServedBy(s, s.forwarding[loc], c.upstreams[n].servers)
    {
      WiredAsConfigured(s, c, loc, "http://", n);
    }
  }

  /** The i-th endpoint of the upstream that the target of a location names, cut by seven bytes, is the first one whose
      connection, made in the state `s`, is still there in `e`; and `id` is that connection. */
  predicate IsEarliest(s: Tables, c: Config, e: Tables, loc: string, id: Id, i: nat) {
    && loc in c.locations && |c.locations[loc].proxyPass| >= 7
    && var n := c.locations[loc].proxyPass[7..];
       n in c.upstreams && i < |c.upstreams[n].servers| && PeerIs(e, id, c.upstreams[n].servers[i])
       && loc in s.forwarding && i < |s.forwarding[loc]|
       && s.forwarding[loc][i] in e.serverConns && e.serverConns[s.forwarding[loc][i]] == id
       && forall j :: 0 <= j < i ==> s.forwarding[loc][j] !in e.serverConns
  }

  lemma HeadIsEarliest(s: Tables, e: Tables, loc: string) returns (i: nat)
    requires Inv(s, s.forwarding) && Inv(e, s.forwarding) && KeepsConns(s, e) && KeepsFiled(s, e)
    requires loc in s.forwarding && loc in e.forwarding && e.forwarding[loc] != []
    ensures i < |s.forwarding[loc]| && s.forwarding[loc][i] in e.serverConns
    ensures e.forwarding[loc][0] == s.forwarding[loc][i] && s.forwarding[loc][i] in s.serverConns
    ensures e.serverConns[s.forwarding[loc][i]] == s.serverConns[s.forwarding[loc][i]]
    ensures forall j :: 0 <= j < i ==> s.forwarding[loc][j] !in e.serverConns
  {
    hide Known, Filed, Paired, Exclusive;
    i := FirstAlive(s.forwarding[loc], e.serverConns.Keys);
  }

  /** Failover: from a proxy that is connected as configured, after any run, a forwarded request goes to an endpoint of
      the upstream that the target of its location names, cut by seven bytes: to the earliest one, in configured
      order, whose connection is still there. Its location is the longest one that serves its path. */
  lemma RequestsGoToEarliest(s: Tables, c: Config, steps: seq<Step>, w: Worker, read: Read)
    requires Inv(s, s.forwarding) && WiredTo(s, c)
    requires CanTake(s, steps) && Enabled(After(s, steps), Process(w, read))
    ensures var e := After(s, steps);
            var id, sent := e.busy[w], Next(e, Process(w, read)).1;
            e.conns[id].kind.Client? && sent.Forward? ==>
              exists loc, i :: RoutesTo(FirstLine(e.conns[id].buf + read.data), c.locations.Keys, loc)
                               && IsEarliest(s, c, e, loc, sent.target, i)
  {
    hide Inv, Lists, RouteOf, FirstLine, InsertClient, CanTake, After, RoutesTo, WiredTo;
    var e := After(s, steps);
    RunsKeepTables(s, s.forwarding, steps);
    RunsKeepConns(s, s.forwarding, steps);
    RunsKeepFiled(s, s.forwarding, steps);
    var id, sent := e.busy[w], Next(e, Process(w, read)).1;
    if e.conns[id].kind.Client? && sent.Forward? {
      ForwardingKeys(e, s.forwarding);
      LocationsAreKeys(s, c);
      var line := FirstLine(e.conns[id].buf + read.data);
      var loc := RouteOf(line, c.locations.Keys).value.businessCode;
      RouteIff(line, c.locations.Keys, loc);
      var i := HeadIsEarliest(s, e, loc);
      TargetIsLong(s, c, loc);
      var pass := c.locations[loc].proxyPass;
      assert pass == pass[..7] + pass[7..];
      WiredAsConfigured(s, c, loc, pass[..7], pass[7..]);
      assert IsEarliest(s, c, e, loc, sent.target, i);
    }
  }

  lemma LocationsAreKeys(s: Tables, c: Config)
    requires WiredTo(s, c)
    ensures s.forwarding.Keys == c.locations.Keys
  {
  }

  lemma TargetIsLong(s: Tables, c: Config, loc: string)
    requires WiredTo(s, c) && loc in c.locations
    ensures |c.locations[loc].proxyPass| >= 7
  {
    assert Lists(s, c, loc);
  }

  lemma ForwardingKeys(t: Tables, wired: map<string, seq<int>>)
    requires Inv(t, wired)
    ensures t.forwarding.Keys == wired.Keys
  {
  }
}
