/** What a configuration means whenever the parser returns normally, however its lines are cut: each upstream
    holds the servers given under its name, each location the last target given under its id. */
module ConfigMerge {
  import opened Sequences
  import opened Options
  import opened Bytes
  import opened Configs
  import opened ConfigFiles

  // ---- What is written in a file ----

  /** A directive with its argument, if it takes one and there is one. */
  datatype Item = Item(name: string, argument: Option<string>)

  function Items(ws: seq<string>): seq<Item>
    decreases |ws|
  {
    if ws == [] then []
    else if ws[0] == "location" then [Item(ws[0], Some(FirstOr(ws[1..], "")))]
    else if ws[0] in {"server_name", "listen", "proxy_pass", "server"} then
      [Item(ws[0], if |ws| > 1 then Some(ws[1]) else None)] + Items(Rest(ws[1..]))
    else [Item(ws[0], None)] + Items(ws[1..])
  }

  /** The endpoints after the word `server`, in the order of the line. */
  function ServersIn(items: seq<Item>): seq<Endpoint> {
    if items == [] then [] else
    (if items[0].name == "server" && items[0].argument.Some? then EndpointOf(items[0].argument.value) else [])
    + ServersIn(items[1..])
  }

  function EndpointOf(text: string): seq<Endpoint> {
    var colon := Find(text, ':', 0);
    if colon < |text| then [(text[..colon], text[colon + 1..])] else []
  }

  /** The targets after the word `proxy_pass`, in the order of the line. */
  function PassesIn(items: seq<Item>): seq<string> {
    if items == [] then [] else
    (if items[0].name == "proxy_pass" && items[0].argument.Some? then [items[0].argument.value] else [])
    + PassesIn(items[1..])
  }

  /** The id of the location that a line opens with its last directive. */
  function OpenedBy(ws: seq<string>): Option<string> {
    var items := Items(ws);
    if items != [] && items[|items| - 1].name == "location" then items[|items| - 1].argument else None
  }

  datatype Place = Outside | WithinServer | WithinLocation(id: string) | WithinUpstream(name: string)

  /** Where a line stands, and the last word read outside of every block. */
  datatype Spot = Spot(place: Place, word: string)

  /** The block a line outside of every block opens. */
  function Opens(word: string, ws: seq<string>): Place {
    var w := FirstOr(ws, word);
    if w == "server" then WithinServer else if w == "upstream" then WithinUpstream(FirstOr(Rest(ws), "")) else Outside
  }

  function WordAfter(word: string, ws: seq<string>): string {
    var w := FirstOr(ws, word);
    if w == "threadNum" || w == "queSize" then FirstOr(Rest(ws), w) else w
  }

  /** Where the next line stands. */
  function SpotAfter(spot: Spot, ws: seq<string>): Spot {
    var closes := "}" in Directives(ws);
    match spot.place
    case Outside => Spot(Opens(spot.word, ws), WordAfter(spot.word, ws))
    case WithinServer =>
      if OpenedBy(ws).Some? then spot.(place := WithinLocation(OpenedBy(ws).value))
      else if closes then spot.(place := Outside) else spot
    case WithinLocation(_) => if closes then spot.(place := WithinServer) else spot
    case WithinUpstream(_) => if closes then spot.(place := Outside) else spot
  }

  /** Whether a line names the upstream, and which servers it gives for it. */
  predicate NamesUpstream(spot: Spot, ws: seq<string>, name: string) {
    spot.place.Outside? && Opens(spot.word, ws) == WithinUpstream(name)
  }

  function ServersOn(spot: Spot, ws: seq<string>, name: string): seq<Endpoint> {
    if spot.place == WithinUpstream(name) then ServersIn(Items(ws)) else []
  }

  predicate NamesLocation(spot: Spot, ws: seq<string>, id: string) {
    spot.place.WithinServer? && OpenedBy(ws) == Some(id)
  }

  function PassesOn(spot: Spot, ws: seq<string>, id: string): seq<string> {
    if spot.place == WithinLocation(id) then PassesIn(Items(ws)) else []
  }

  predicate UpstreamNamed(spot: Spot, wls: seq<seq<string>>, name: string)
    decreases |wls|
  {
    wls != [] && (NamesUpstream(spot, wls[0], name) || UpstreamNamed(SpotAfter(spot, wls[0]), wls[1..], name))
  }

  /** All servers given under a name, in file order. */
  function ServersUnder(spot: Spot, wls: seq<seq<string>>, name: string): seq<Endpoint>
    decreases |wls|
  {
    if wls == [] then [] else ServersOn(spot, wls[0], name) + ServersUnder(SpotAfter(spot, wls[0]), wls[1..], name)
  }

  predicate LocationNamed(spot: Spot, wls: seq<seq<string>>, id: string)
    decreases |wls|
  {
    wls != [] && (NamesLocation(spot, wls[0], id) || LocationNamed(SpotAfter(spot, wls[0]), wls[1..], id))
  }

  /** All targets given under a location, in file order. */
  function PassesUnder(spot: Spot, wls: seq<seq<string>>, id: string): seq<string>
    decreases |wls|
  {
    if wls == [] then [] else PassesOn(spot, wls[0], id) + PassesUnder(SpotAfter(spot, wls[0]), wls[1..], id)
  }

  // ---- One line ----

  /** The parser stands where the line does. */
  predicate At(st: State, spot: Spot) {
    && st.word == spot.word
    && match spot.place
       case Outside => st.check == Begain
       case WithinServer => st.check == InServer
       case WithinLocation(id) => st.check == InLocation && st.curLocation == id && id in st.config.locations
       case WithinUpstream(name) => st.check == InUpstream && st.curUpstream == name && name in st.config.upstreams
  }

  /** The directives are the names of the items, and `location` can only be the last. */
  lemma {:induction false} ItemsAre(ws: seq<string>)
    ensures |Items(ws)| == |Directives(ws)|
    ensures forall k :: 0 <= k < |Items(ws)| ==> Items(ws)[k].name == Directives(ws)[k]
    decreases |ws|
  {
    if ws != [] && ws[0] != "location" {
      var takes := ws[0] in {"server_name", "listen", "proxy_pass", "server"};
      var more := if takes then Rest(ws[1..]) else ws[1..];
      ItemsAre(more);
      assert Directives(ws) == [ws[0]] + Directives(more);
      var item := Item(ws[0], if takes && |ws| > 1 then Some(ws[1]) else None);
      assert Items(ws) == [item] + Items(more);
    }
  }

  lemma OpenedIsLast(ws: seq<string>)
    ensures OpenedBy(ws).Some? <==> Last(Directives(ws)) == "location"
  {
    hide Items, Directives;
    ItemsAre(ws);
    LocationHasArgument(ws);
  }

  lemma {:induction false} LocationHasArgument(ws: seq<string>)
    ensures forall k :: 0 <= k < |Items(ws)| && Items(ws)[k].name == "location" ==> Items(ws)[k].argument.Some?
    decreases |ws|
  {
    if ws != [] && ws[0] != "location" {
      var takes := ws[0] in {"server_name", "listen", "proxy_pass", "server"};
      LocationHasArgument(if takes then Rest(ws[1..]) else ws[1..]);
    }
  }

  lemma OpenedLater(item: Item, ws: seq<string>, more: seq<string>)
    requires Items(ws) == [item] + Items(more) && item.name != "location"
    ensures OpenedBy(ws) == OpenedBy(more)
  {
  }

  lemma FirstServers(item: Item, items: seq<Item>)
    ensures ServersIn([item] + items)
         == (if item.name == "server" && item.argument.Some? then EndpointOf(item.argument.value) else [])
            + ServersIn(items)
  {
    assert ([item] + items)[1..] == items;
  }

  lemma FirstPasses(item: Item, items: seq<Item>)
    ensures PassesIn([item] + items)
         == (if item.name == "proxy_pass" && item.argument.Some? then [item.argument.value] else []) + PassesIn(items)
  {
    assert ([item] + items)[1..] == items;
  }

  lemma BraceFirst(ws: seq<string>)
    requires ws != [] && (ws[0] == "{" || ws[0] == "}")
    ensures Items(ws) == [Item(ws[0], None)] + Items(ws[1..])
    ensures forall items :: ServersIn([Item(ws[0], None)] + items) == ServersIn(items)
    ensures forall items :: PassesIn([Item(ws[0], None)] + items) == PassesIn(items)
  {
    forall items ensures ServersIn([Item(ws[0], None)] + items) == ServersIn(items) {
      FirstServers(Item(ws[0], None), items);
    }
    forall items ensures PassesIn([Item(ws[0], None)] + items) == PassesIn(items) {
      FirstPasses(Item(ws[0], None), items);
    }
  }

  function WithServers(c: Config, name: string, servers: seq<Endpoint>): Config
    requires name in c.upstreams
  {
    var u := c.upstreams[name];
    c.(upstreams := c.upstreams[name := u.(servers := u.servers + servers)])
  }

  lemma NoServers(c: Config, name: string)
    requires name in c.upstreams
    ensures WithServers(c, name, []) == c
  {
    assert c.upstreams[name].servers + [] == c.upstreams[name].servers;
    assert c.upstreams[name := c.upstreams[name]] == c.upstreams;
  }

  lemma MoreServers(c: Config, name: string, a: seq<Endpoint>, b: seq<Endpoint>)
    requires name in c.upstreams
    ensures WithServers(WithServers(c, name, a), name, b) == WithServers(c, name, a + b)
  {
    Assoc(c.upstreams[name].servers, a, b);
  }

  lemma {:induction false} UpstreamWordsRead(st: State, ws: seq<string>)
    requires UpstreamWords(st, ws).status.LineOk? && st.curUpstream in st.config.upstreams
    ensures var r := UpstreamWords(st, ws).state;
            r.config == WithServers(st.config, st.curUpstream, ServersIn(Items(ws)))
            && r.word == st.word && r.curUpstream == st.curUpstream
    decreases |ws|
  {
    hide Find;
    if ws == [] {
      NoServers(st.config, st.curUpstream);
    } else if st.upstreamOpen && ws[0] == "server" {
      UpstreamServerRead(st, ws);
    } else {
      var st' := if !st.upstreamOpen then st.(upstreamOpen := true) else st.(upstreamOpen := false, check := Begain);
      UpstreamWordsRead(st', ws[1..]);
      BraceFirst(ws);
    }
  }

  lemma {:induction false} UpstreamServerRead(st: State, ws: seq<string>)
    requires UpstreamWords(st, ws).status.LineOk? && st.curUpstream in st.config.upstreams
    requires ws != [] && st.upstreamOpen && ws[0] == "server"
    ensures var r := UpstreamWords(st, ws).state;
            r.config == WithServers(st.config, st.curUpstream, ServersIn(Items(ws)))
            && r.word == st.word && r.curUpstream == st.curUpstream
    decreases |ws|, 0
  {
    var text := FirstOr(ws[1..], "");
    var colon := Find(text, ':', 0);
    assert |ws| > 1 && colon < |text|;
    var e := (text[..colon], text[colon + 1..]);
    var st' := st.(config := WithServer(st.config, st.curUpstream, e));
    assert st'.config == WithServers(st.config, st.curUpstream, [e]);
    UpstreamWordsRead(st', Rest(ws[1..]));
    FirstServers(Item("server", Some(text)), Items(Rest(ws[1..])));
    MoreServers(st.config, st.curUpstream, [e], ServersIn(Items(Rest(ws[1..]))));
  }

  function WithPasses(c: Config, id: string, passes: seq<string>): Config
    requires id in c.locations
  {
    c.(locations := c.locations[id := c.locations[id].(proxyPass := LastOr(passes, c.locations[id].proxyPass))])
  }

  lemma NoPasses(c: Config, id: string)
    requires id in c.locations
    ensures WithPasses(c, id, []) == c
  {
    assert c.locations[id := c.locations[id]] == c.locations;
  }

  lemma MorePasses(c: Config, id: string, a: seq<string>, b: seq<string>)
    requires id in c.locations
    ensures WithPasses(WithPasses(c, id, a), id, b) == WithPasses(c, id, a + b)
  {
    LastOrJoin(a, b, c.locations[id].proxyPass);
  }

  lemma {:induction false} LocationWordsRead(st: State, ws: seq<string>)
    requires LocationWords(st, ws).status.LineOk? && st.curLocation in st.config.locations
    ensures var r := LocationWords(st, ws).state;
            r.config == WithPasses(st.config, st.curLocation, PassesIn(Items(ws)))
            && r.word == st.word && r.curLocation == st.curLocation
    decreases |ws|
  {
    hide WithPasses;
    if ws == [] {
      NoPasses(st.config, st.curLocation);
    } else if st.locationOpen && ws[0] == "proxy_pass" {
      LocationPassRead(st, ws);
    } else {
      var st' := if !st.locationOpen then st.(locationOpen := true) else st.(locationOpen := false, check := InServer);
      LocationWordsRead(st', ws[1..]);
      BraceFirst(ws);
    }
  }

  lemma {:induction false} LocationPassRead(st: State, ws: seq<string>)
    requires LocationWords(st, ws).status.LineOk? && st.curLocation in st.config.locations
    requires ws != [] && st.locationOpen && ws[0] == "proxy_pass"
    ensures var r := LocationWords(st, ws).state;
            r.config == WithPasses(st.config, st.curLocation, PassesIn(Items(ws)))
            && r.word == st.word && r.curLocation == st.curLocation
    decreases |ws|, 0
  {
    var given := if |ws| > 1 then [ws[1]] else [];
    var pass := FirstOr(ws[1..], LocationAt(st.config, st.curLocation).proxyPass);
    var st' := st.(config := WithPass(st.config, st.curLocation, pass));
    var more := Rest(ws[1..]);
    assert st'.config == WithPasses(st.config, st.curLocation, given);
    LocationWordsRead(st', more);
    PassItem(ws);
    MorePasses(st.config, st.curLocation, given, PassesIn(Items(more)));
  }

  lemma PassItem(ws: seq<string>)
    requires ws != [] && ws[0] == "proxy_pass"
    ensures PassesIn(Items(ws)) == (if |ws| > 1 then [ws[1]] else []) + PassesIn(Items(Rest(ws[1..])))
  {
    FirstPasses(Item("proxy_pass", if |ws| > 1 then Some(ws[1]) else None), Items(Rest(ws[1..])));
  }

  /** A line of a server block changes no upstream, and a location only by naming it. */
  predicate ServerRead(st: State, r: State, into: Option<string>) {
    && r.word == st.word && r.config.upstreams == st.config.upstreams
    && match into
       case None => r.config.locations == st.config.locations
       case Some(id) => r.curLocation == id && r.config.locations == WithLocation(st.config, id).locations
  }

  lemma {:induction false} ServerWordsRead(st: State, ws: seq<string>)
    requires ServerWords(st, ws).status.LineOk?
    ensures ServerRead(st, ServerWords(st, ws).state, OpenedBy(ws))
    decreases |ws|
  {
    hide Stoi;
    if ws != [] && ws[0] != "location" {
      var st', more := st, ws[1..];
      var item := Item(ws[0], None);
      if !st.serverOpen {
        st' := st.(serverOpen := true);
      } else if ws[0] == "server_name" {
        if |ws| == 1 { return; }
        st', more := st.(config := st.config.(serverName := ws[1])), ws[2..];
        item := Item(ws[0], Some(ws[1]));
      } else if ws[0] == "listen" {
        st', more := st.(config := st.config.(listen := Stoi(FirstOr(ws[1..], "listen")).value)), Rest(ws[1..]);
        item := Item(ws[0], if |ws| > 1 then Some(ws[1]) else None);
      } else {
        st' := st.(serverOpen := false, check := Begain);
      }
      ServerWordsRead(st', more);
      OpenedLater(item, ws, more);
    }
  }

  /** What one accepted line adds, for one upstream and one location. */
  predicate Adds(c: Config, c': Config, spot: Spot, ws: seq<string>, name: string, id: string) {
    && (name in c'.upstreams <==> name in c.upstreams || NamesUpstream(spot, ws, name))
    && UpstreamAt(c', name).servers == UpstreamAt(c, name).servers + ServersOn(spot, ws, name)
    && (id in c'.locations <==> id in c.locations || NamesLocation(spot, ws, id))
    && LocationAt(c', id).proxyPass == LastOr(PassesOn(spot, ws, id), LocationAt(c, id).proxyPass)
  }

  lemma OutsideAdds(st: State, spot: Spot, ws: seq<string>, name: string, id: string)
    requires At(st, spot) && spot.place.Outside? && Line(st, ws).status.LineOk?
    ensures At(Line(st, ws).state, SpotAfter(spot, ws))
    ensures Adds(st.config, Line(st, ws).state.config, spot, ws, name, id)
  {
    hide Stoi, Items, Directives, Adds, ServerWords, LocationWords, UpstreamWords;
    TopAdds(st, ws);
    var up := Opens(spot.word, ws);
    OneNamed(st.config, Line(st, ws).state.config, spot, ws, up, name, id);
  }

  /** A line outside of every block adds at most the upstream it names. */
  lemma TopAdds(st: State, ws: seq<string>)
    requires TopLine(st, ws).status.LineOk?
    ensures var c, c', up := st.config, TopLine(st, ws).state.config, Opens(st.word, ws);
            c'.locations == c.locations
            && c'.upstreams == if up.WithinUpstream? then WithUpstream(c, up.name).upstreams else c.upstreams
  {
    hide Stoi;
  }

  lemma OneNamed(c: Config, c': Config, spot: Spot, ws: seq<string>, up: Place, name: string, id: string)
    requires spot.place.Outside? && up == Opens(spot.word, ws) && c'.locations == c.locations
    requires c'.upstreams == if up.WithinUpstream? then WithUpstream(c, up.name).upstreams else c.upstreams
    ensures Adds(c, c', spot, ws, name, id)
  {
    hide Items, Directives, Opens;
    assert UpstreamAt(c, name).servers + [] == UpstreamAt(c, name).servers;
  }

  lemma ServerAdds(st: State, spot: Spot, ws: seq<string>, name: string, id: string)
    requires At(st, spot) && spot.place.WithinServer? && Line(st, ws).status.LineOk?
    ensures At(Line(st, ws).state, SpotAfter(spot, ws))
    ensures Adds(st.config, Line(st, ws).state.config, spot, ws, name, id)
  {
    hide ServerWords, Items, Directives;
    ServerWordsLeave(st, ws);
    ServerWordsRead(st, ws);
    OpenedIsLast(ws);
  }

  lemma LocationAdds(st: State, spot: Spot, ws: seq<string>, name: string, id: string)
    requires At(st, spot) && spot.place.WithinLocation? && Line(st, ws).status.LineOk?
    ensures At(Line(st, ws).state, SpotAfter(spot, ws))
    ensures Adds(st.config, Line(st, ws).state.config, spot, ws, name, id)
  {
    hide LocationWords, Items, Directives, PassesIn;
    LocationWordsLeave(st, ws);
    LocationWordsRead(st, ws);
  }

  lemma UpstreamAdds(st: State, spot: Spot, ws: seq<string>, name: string, id: string)
    requires At(st, spot) && spot.place.WithinUpstream? && Line(st, ws).status.LineOk?
    ensures At(Line(st, ws).state, SpotAfter(spot, ws))
    ensures Adds(st.config, Line(st, ws).state.config, spot, ws, name, id)
  {
    hide UpstreamWords, Items, Directives, ServersIn;
    UpstreamWordsLeave(st, ws);
    UpstreamWordsRead(st, ws);
  }

  lemma LineAdds(st: State, spot: Spot, ws: seq<string>, name: string, id: string)
    requires At(st, spot) && Line(st, ws).status.LineOk?
    ensures At(Line(st, ws).state, SpotAfter(spot, ws))
    ensures Adds(st.config, Line(st, ws).state.config, spot, ws, name, id)
  {
    hide At, Line, Adds, SpotAfter;
    match spot.place {
      case Outside => OutsideAdds(st, spot, ws, name, id);
      case WithinServer => ServerAdds(st, spot, ws, name, id);
      case WithinLocation(_) => LocationAdds(st, spot, ws, name, id);
      case WithinUpstream(_) => UpstreamAdds(st, spot, ws, name, id);
    }
  }

  // ---- Which lines are accepted ----

  /** Before the k-th directive the block is closed: it was at the start of the line, or the directive before closes. */
  predicate ClosedAt(items: seq<Item>, open: bool, k: nat)
    requires k <= |items|
  {
    if k == 0 then !open else items[k - 1].name == "}"
  }

  /** A brace opens exactly where the block is closed, and everything else stands where it is open. */
  predicate Braced(items: seq<Item>, open: bool) {
    forall k :: 0 <= k < |items| ==> (items[k].name == "{" <==> ClosedAt(items, open, k))
  }

  predicate AllFit(items: seq<Item>, fits: Item -> bool) {
    forall item <- items :: item.name in {"{", "}"} || fits(item)
  }

  /** What may stand in an upstream block: a server with a ':' in its text. */
  predicate FitsUpstream(item: Item) {
    item.name == "server" && item.argument.Some? && ':' in item.argument.value
  }

  /** In a location: a target, or the word for it at the end of the line. */
  predicate FitsLocation(item: Item) {
    item.name == "proxy_pass"
  }

  /** In a server block: a name, a port that is a number, or a location. */
  predicate FitsServer(item: Item) {
    || item.name == "server_name"
    || (item.name == "listen" && item.argument.Some? && Stoi(item.argument.value).Some?)
    || item.name == "location"
  }

  lemma BracedLater(item: Item, more: seq<Item>, open: bool)
    ensures Braced([item] + more, open) <==> (item.name == "{" <==> !open) && Braced(more, item.name != "}")
  {
    var all := [item] + more;
    assert forall k | 0 <= k < |more| :: all[k + 1] == more[k];
    if Braced(all, open) {
      assert (all[0].name == "{" <==> ClosedAt(all, open, 0));
      forall k | 0 <= k < |more| ensures more[k].name == "{" <==> ClosedAt(more, item.name != "}", k) {
        assert (all[k + 1].name == "{" <==> ClosedAt(all, open, k + 1));
      }
    }
    if (item.name == "{" <==> !open) && Braced(more, item.name != "}") {
      forall k | 0 <= k < |all| ensures all[k].name == "{" <==> ClosedAt(all, open, k) {
        if k > 0 { assert (more[k - 1].name == "{" <==> ClosedAt(more, item.name != "}", k - 1)); }
      }
    }
  }

  lemma FitLater(item: Item, more: seq<Item>, fits: Item -> bool)
    ensures AllFit([item] + more, fits) <==> (item.name in {"{", "}"} || fits(item)) && AllFit(more, fits)
  {
    var all := [item] + more;
    assert forall x :: x in all <==> x == item || x in more;
  }

  /** A line inside an upstream block is accepted exactly if its directives are braces that fit and such servers. */
  lemma {:induction false} UpstreamAcceptedIff(st: State, ws: seq<string>)
    ensures UpstreamWords(st, ws).status.LineOk?
            <==> Braced(Items(ws), st.upstreamOpen) && AllFit(Items(ws), FitsUpstream)
    decreases |ws|
  {
    hide Braced, AllFit, Find;
    if ws == [] {
      NothingFits(st.upstreamOpen, FitsUpstream);
    } else {
      var item, more := FirstItem(ws);
      BracedLater(item, Items(more), st.upstreamOpen);
      FitLater(item, Items(more), FitsUpstream);
      if st.upstreamOpen && ws[0] == "server" {
        UpstreamServerAccepted(st, ws);
      } else if !st.upstreamOpen && ws[0] == "{" {
        UpstreamAcceptedIff(st.(upstreamOpen := true), more);
      } else if st.upstreamOpen && ws[0] == "}" {
        UpstreamAcceptedIff(st.(upstreamOpen := false, check := Begain), more);
      }
    }
  }

  lemma {:induction false} UpstreamServerAccepted(st: State, ws: seq<string>)
    requires ws != [] && st.upstreamOpen && ws[0] == "server"
    ensures var more := Rest(ws[1..]);
            UpstreamWords(st, ws).status.LineOk?
            <==> |ws| > 1 && ':' in ws[1] && Braced(Items(more), true) && AllFit(Items(more), FitsUpstream)
    decreases |ws|, 0
  {
    hide Braced, AllFit;
    var text := FirstOr(ws[1..], "");
    FindFirst(text, ':', 0);
    var colon := Find(text, ':', 0);
    if colon < |text| {
      var e := (text[..colon], text[colon + 1..]);
      UpstreamAcceptedIff(st.(config := WithServer(st.config, st.curUpstream, e)), Rest(ws[1..]));
    }
  }

  lemma NothingFits(open: bool, fits: Item -> bool)
    ensures Braced([], open) && AllFit([], fits)
  {
  }

  /** The first directive of a line and the words after it. */
  lemma FirstItem(ws: seq<string>) returns (item: Item, more: seq<string>)
    requires ws != []
    ensures Items(ws) == [item] + Items(more) && item.name == ws[0] && |more| < |ws|
    ensures more == if ws[0] == "location" then []
                    else if ws[0] in {"server_name", "listen", "proxy_pass", "server"} then Rest(ws[1..]) else ws[1..]
    ensures item.argument == if ws[0] == "location" then Some(FirstOr(ws[1..], ""))
                             else if ws[0] in {"server_name", "listen", "proxy_pass", "server"} && |ws| > 1
                             then Some(ws[1]) else None
  {
    var takes := ws[0] in {"server_name", "listen", "proxy_pass", "server"};
    if ws[0] == "location" {
      item, more := Item(ws[0], Some(FirstOr(ws[1..], ""))), [];
    } else if takes {
      item, more := Item(ws[0], if |ws| > 1 then Some(ws[1]) else None), Rest(ws[1..]);
    } else {
      item, more := Item(ws[0], None), ws[1..];
    }
  }

  /** A line inside a location. */
  lemma {:induction false} LocationAcceptedIff(st: State, ws: seq<string>)
    ensures LocationWords(st, ws).status.LineOk?
            <==> Braced(Items(ws), st.locationOpen) && AllFit(Items(ws), FitsLocation)
    decreases |ws|
  {
    hide Braced, AllFit;
    if ws == [] {
      NothingFits(st.locationOpen, FitsLocation);
    } else {
      var item, more := FirstItem(ws);
      BracedLater(item, Items(more), st.locationOpen);
      FitLater(item, Items(more), FitsLocation);
      if st.locationOpen && ws[0] == "proxy_pass" {
        var pass := FirstOr(ws[1..], LocationAt(st.config, st.curLocation).proxyPass);
        LocationAcceptedIff(st.(config := WithPass(st.config, st.curLocation, pass)), more);
      } else if !st.locationOpen && ws[0] == "{" {
        LocationAcceptedIff(st.(locationOpen := true), more);
      } else if st.locationOpen && ws[0] == "}" {
        LocationAcceptedIff(st.(locationOpen := false, check := InServer), more);
      }
    }
  }

  /** A line inside a server block. */
  lemma {:induction false} ServerAcceptedIff(st: State, ws: seq<string>)
    ensures ServerWords(st, ws).status.LineOk?
            <==> Braced(Items(ws), st.serverOpen) && AllFit(Items(ws), FitsServer)
    decreases |ws|
  {
    hide Braced, AllFit, Stoi;
    if ws == [] {
      NothingFits(st.serverOpen, FitsServer);
    } else {
      var item, more := FirstItem(ws);
      BracedLater(item, Items(more), st.serverOpen);
      FitLater(item, Items(more), FitsServer);
      if !st.serverOpen {
        if ws[0] == "{" { ServerAcceptedIff(st.(serverOpen := true), more); }
      } else if ws[0] == "location" {
        NothingFits(true, FitsServer);
      } else if ws[0] == "server_name" {
        ServerNameAccepted(st, ws);
      } else if ws[0] == "listen" {
        ServerListenAccepted(st, ws);
      } else if ws[0] == "}" {
        ServerAcceptedIff(st.(serverOpen := false, check := Begain), more);
      }
    }
  }

  lemma {:induction false} ServerNameAccepted(st: State, ws: seq<string>)
    requires ws != [] && st.serverOpen && ws[0] == "server_name"
    ensures var more := Rest(ws[1..]);
            ServerWords(st, ws).status.LineOk? <==> Braced(Items(more), true) && AllFit(Items(more), FitsServer)
    decreases |ws|, 0
  {
    hide Braced, AllFit, Stoi;
    if |ws| == 1 {
      NothingFits(true, FitsServer);
    } else {
      ServerAcceptedIff(st.(config := st.config.(serverName := ws[1])), ws[2..]);
      assert Rest(ws[1..]) == ws[2..];
    }
  }

  lemma {:induction false} ServerListenAccepted(st: State, ws: seq<string>)
    requires ws != [] && st.serverOpen && ws[0] == "listen"
    ensures var more := Rest(ws[1..]);
            ServerWords(st, ws).status.LineOk?
            <==> |ws| > 1 && Stoi(ws[1]).Some? && Braced(Items(more), true) && AllFit(Items(more), FitsServer)
    decreases |ws|, 0
  {
    ListenIsNoNumber();
    hide Braced, AllFit, Stoi;
    var value := Stoi(FirstOr(ws[1..], "listen"));
    if value.Some? { ServerAcceptedIff(st.(config := st.config.(listen := value.value)), Rest(ws[1..])); }
  }

  lemma ListenIsNoNumber()
    ensures Stoi("listen") == None && Stoi("threadNum") == None && Stoi("queSize") == None
  {
  }

  /** A line outside of every block is accepted exactly if its first word, or on a line of other white space the one
      before, is a block header or names a number that follows. */
  lemma OutsideAcceptedIff(st: State, ws: seq<string>)
    ensures var word := if ws == [] then st.word else ws[0];
            TopLine(st, ws).status.LineOk?
            <==> word in {"server", "upstream"}
                 || (word in {"threadNum", "queSize"} && |ws| > 1 && Stoi(ws[1]).Some?)
  {
    ListenIsNoNumber();
    hide Stoi;
  }

  // ---- The file ----

  lemma {:induction false} LinesMerge(st: State, spot: Spot, wls: seq<seq<string>>, name: string, id: string)
    requires At(st, spot) && RunLines(st, wls).status.LineOk?
    ensures var c, c' := st.config, RunLines(st, wls).state.config;
            (name in c'.upstreams <==> name in c.upstreams || UpstreamNamed(spot, wls, name))
            && UpstreamAt(c', name).servers == UpstreamAt(c, name).servers + ServersUnder(spot, wls, name)
            && (id in c'.locations <==> id in c.locations || LocationNamed(spot, wls, id))
            && LocationAt(c', id).proxyPass == LastOr(PassesUnder(spot, wls, id), LocationAt(c, id).proxyPass)
    decreases |wls|
  {
    hide At, Line, SpotAfter, ServersOn, PassesOn, NamesUpstream, NamesLocation, UpstreamAt, LocationAt;
    if wls == [] {
      assert UpstreamAt(st.config, name).servers + [] == UpstreamAt(st.config, name).servers;
    } else {
      var ws, st1, spot1 := wls[0], Line(st, wls[0]).state, SpotAfter(spot, wls[0]);
      LineAdds(st, spot, ws, name, id);
      LinesMerge(st1, spot1, wls[1..], name, id);
      Assoc(UpstreamAt(st.config, name).servers, ServersOn(spot, ws, name), ServersUnder(spot1, wls[1..], name));
      LastOrJoin(PassesOn(spot, ws, id), PassesUnder(spot1, wls[1..], id), LocationAt(st.config, id).proxyPass);
    }
  }

  /** The lines of a file that hold anything, as words. */
  function LinesOf(lines: seq<string>): seq<seq<string>> {
    if lines == [] then []
    else (if TrimLine(lines[0]) == "" then [] else [Words(TrimLine(lines[0]))]) + LinesOf(lines[1..])
  }

  /** A file is parsed normally exactly if all its lines are accepted and the last block is closed. */
  lemma {:induction false} ParsesLines(st: State, lines: seq<string>)
    ensures var r, p := RunLines(st, LinesOf(lines)), ParseLines(st, lines);
            (p.status.LineOk? <==> r.status.LineOk? && r.state.check == Begain) && (p.status.LineOk? ==> p == r)
            && (!p.status.LineOk? ==> p.status.Thrown?)
    decreases |lines|
  {
    hide Line, Words, TrimLine;
    if lines != [] {
      if TrimLine(lines[0]) == "" {
        assert LinesOf(lines) == LinesOf(lines[1..]);
        ParsesLines(st, lines[1..]);
      } else {
        assert LinesOf(lines)[1..] == LinesOf(lines[1..]);
        ParsesLines(Line(st, LinesOf(lines)[0]).state, lines[1..]);
      }
    }
  }

  /** On every normal return, whatever the file and its layout: each upstream holds the servers it had,
      followed by all those given under its name in file order; each location the last target given
      under its id; and there are no others than those named. */
  lemma NormalReturnMerges(st: State, lines: seq<string>, name: string, id: string)
    requires st.check == Begain && ParseLines(st, lines).status.LineOk?
    ensures var spot, wls := Spot(Outside, st.word), LinesOf(lines);
            var c, c' := st.config, ParseLines(st, lines).state.config;
            (name in c'.upstreams <==> name in c.upstreams || UpstreamNamed(spot, wls, name))
            && UpstreamAt(c', name).servers == UpstreamAt(c, name).servers + ServersUnder(spot, wls, name)
            && (id in c'.locations <==> id in c.locations || LocationNamed(spot, wls, id))
            && LocationAt(c', id).proxyPass == LastOr(PassesUnder(spot, wls, id), LocationAt(c, id).proxyPass)
  {
    hide ParseLines, RunLines, LinesOf;
    ParsesLines(st, lines);
    LinesMerge(st, Spot(Outside, st.word), LinesOf(lines), name, id);
  }

  /** All the servers of an upstream on one line, with the closing brace: server a:1 server b:2 }. */
  function OnOneLine(servers: seq<Endpoint>): seq<string> {
    if servers == [] then ["}"] else ["server", servers[0].0 + ":" + servers[0].1] + OnOneLine(servers[1..])
  }

  /** Such lines are accepted as well. */
  lemma {:induction false} OneLineIsRead(st: State, name: string, servers: seq<Endpoint>)
    requires st.check == InUpstream && st.curUpstream == name && name in st.config.upstreams && st.upstreamOpen
    requires forall e: Endpoint <- servers :: ':' !in e.0
    ensures Line(st, OnOneLine(servers))
         == Result(LineOk, st.(upstreamOpen := false, check := Begain, config := WithServers(st.config, name, servers)))
    decreases |servers|
  {
    hide WithServers, Find;
    if servers == [] {
      NoServers(st.config, name);
      assert ["}"][1..] == [];
    } else {
      var e := servers[0];
      assert e in servers && servers == [e] + servers[1..];
      var st' := st.(config := WithServer(st.config, name, e));
      OneServer(st.config, name, e);
      EndpointRead(st, e.0, e.1, OnOneLine(servers[1..]));
      OneLineIsRead(st', name, servers[1..]);
      MoreServers(st.config, name, [e], servers[1..]);
    }
  }

  lemma OneServer(c: Config, name: string, e: Endpoint)
    requires name in c.upstreams
    ensures WithServer(c, name, e) == WithServers(c, name, [e]) && name in WithServer(c, name, e).upstreams
  {
  }

  lemma EndpointRead(st: State, ip: string, port: string, more: seq<string>)
    requires st.upstreamOpen && ':' !in ip
    ensures UpstreamWords(st, ["server", ip + ":" + port] + more)
         == UpstreamWords(st.(config := WithServer(st.config, st.curUpstream, (ip, port))), more)
  {
    hide Find;
    var text := ip + ":" + port;
    FindAcross("", ip, ":" + port, ':');
    Assoc(ip, ":", port);
    assert "" + ip + (":" + port) == text;
    assert text[..|ip|] == ip && text[|ip| + 1..] == port;
    var ws := ["server", text] + more;
    assert ws[1..] == [text] + more && Rest(ws[1..]) == more;
  }
}
