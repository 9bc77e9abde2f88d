/** What a configuration file means, and that the parser reads it whatever its layout. */
module ConfigFiles {
  import opened Sequences
  import opened Options
  import opened Bytes
  import opened Configs

  /** A directive inside a server block. `inline` says whether the brace of a block stands on the
      line of its header or on the next one. */
  datatype Entry = Listen(port: int) | Name(name: string) | Loc(inline: bool, id: string, passes: seq<string>)

  datatype Block =
    | Threads(count: int)
    | Queue(size: int)
    | ServerBlock(inline: bool, entries: seq<Entry>)
    | UpstreamBlock(inline: bool, name: string, servers: seq<Endpoint>)

  // ---- Meaning ----

  function EntryMeans(c: Config, e: Entry): Config {
    match e
    case Listen(port) => c.(listen := port)
    case Name(name) => c.(serverName := name)
    case Loc(_, id, passes) => PassesMean(WithLocation(c, id), id, passes)
  }

  function PassesMean(c: Config, id: string, passes: seq<string>): Config
    decreases |passes|
  {
    if passes == [] then c else PassesMean(WithPass(c, id, passes[0]), id, passes[1..])
  }

  function EntriesMean(c: Config, es: seq<Entry>): Config
    decreases |es|
  {
    if es == [] then c else EntriesMean(EntryMeans(c, es[0]), es[1..])
  }

  function ServersMean(c: Config, name: string, servers: seq<Endpoint>): Config
    decreases |servers|
  {
    if servers == [] then c else ServersMean(WithServer(c, name, servers[0]), name, servers[1..])
  }

  function BlockMeans(c: Config, b: Block): Config {
    match b
    case Threads(n) => c.(threadNum := n)
    case Queue(n) => c.(queSize := n)
    case ServerBlock(_, entries) => EntriesMean(c, entries)
    case UpstreamBlock(_, name, servers) => ServersMean(WithUpstream(c, name), name, servers)
  }

  function Means(c: Config, bs: seq<Block>): Config
    decreases |bs|
  {
    if bs == [] then c else Means(BlockMeans(c, bs[0]), bs[1..])
  }

  // ---- Layout: blocks to lines of words ----

  /** An int as it is printed. */
  function PrintInt(n: int): string {
    if n < 0 then "-" + Decimal(-n) else Decimal(n)
  }

  /** A block header: its brace ends the line or makes up the next one. */
  function Header(inline: bool, ws: seq<string>): seq<seq<string>> {
    if inline then [ws + ["{"]] else [ws, ["{"]]
  }

  function PassLines(passes: seq<string>): seq<seq<string>> {
    if passes == [] then [] else [["proxy_pass", passes[0]]] + PassLines(passes[1..])
  }

  function EntryLines(e: Entry): seq<seq<string>> {
    match e
    case Listen(port) => [["listen", PrintInt(port)]]
    case Name(name) => [["server_name", name]]
    case Loc(inline, id, passes) => Header(inline, ["location", id]) + (PassLines(passes) + [["}"]])
  }

  function EntriesLines(es: seq<Entry>): seq<seq<string>> {
    if es == [] then [] else EntryLines(es[0]) + EntriesLines(es[1..])
  }

  function ServerLines(servers: seq<Endpoint>): seq<seq<string>> {
    if servers == [] then [] else [["server", servers[0].0 + ":" + servers[0].1]] + ServerLines(servers[1..])
  }

  function BlockLines(b: Block): seq<seq<string>> {
    match b
    case Threads(n) => [["threadNum", PrintInt(n)]]
    case Queue(n) => [["queSize", PrintInt(n)]]
    case ServerBlock(inline, entries) => Header(inline, ["server"]) + (EntriesLines(entries) + [["}"]])
    case UpstreamBlock(inline, name, servers) => Header(inline, ["upstream", name]) + (ServerLines(servers) + [["}"]])
  }

  function WordLines(bs: seq<Block>): seq<seq<string>> {
    if bs == [] then [] else BlockLines(bs[0]) + WordLines(bs[1..])
  }

  /** The text lines carry exactly these lines of words; lines that are blank or hold only a comment
      may stand anywhere between them. */
  predicate Renders(lines: seq<string>, wls: seq<seq<string>>)
    decreases |lines|
  {
    if lines == [] then wls == []
    else if TrimLine(lines[0]) == "" then Renders(lines[1..], wls)
    else wls != [] && Words(TrimLine(lines[0])) == wls[0] && Renders(lines[1..], wls[1..])
  }

  // ---- What can be written in a file ----

  predicate Int32(n: int) {
    -0x8000_0000 <= n < 0x8000_0000
  }

  predicate EntryFits(e: Entry) {
    e.Listen? ==> Int32(e.port)
  }

  predicate BlockFits(b: Block) {
    match b
    case Threads(n) => Int32(n)
    case Queue(n) => Int32(n)
    case ServerBlock(_, entries) => forall e <- entries :: EntryFits(e)
    case UpstreamBlock(_, _, servers) => forall e: Endpoint <- servers :: ':' !in e.0
  }

  // ---- Lines of words through the machine ----

  /** All lines, given by their words. */
  function RunLines(st: State, wls: seq<seq<string>>): Result
    decreases |wls|
  {
    if wls == [] then Result(LineOk, st) else
    var r := Line(st, wls[0]);
    if r.status.LineOk? then RunLines(r.state, wls[1..]) else r
  }

  lemma {:induction false} RunLinesJoin(st: State, a: seq<seq<string>>, b: seq<seq<string>>)
    requires RunLines(st, a).status.LineOk?
    ensures RunLines(st, a + b) == RunLines(RunLines(st, a).state, b)
    decreases |a|
  {
    hide Line;
    if a == [] {
      assert a + b == b;
    } else {
      assert (a + b)[0] == a[0] && (a + b)[1..] == a[1..] + b;
      RunLinesJoin(Line(st, a[0]).state, a[1..], b);
    }
  }

  /** Blank lines and comments do not matter: parsing the text is running its lines of words. */
  lemma {:induction false} ParsesRendered(st: State, lines: seq<string>, wls: seq<seq<string>>)
    requires Renders(lines, wls) && RunLines(st, wls).status.LineOk? && RunLines(st, wls).state.check == Begain
    ensures ParseLines(st, lines) == RunLines(st, wls)
    decreases |lines|
  {
    hide Line, Words, TrimLine;
    if lines != [] {
      if TrimLine(lines[0]) == "" {
        ParsesRendered(st, lines[1..], wls);
      } else {
        ParsesRendered(Line(st, wls[0]).state, lines[1..], wls[1..]);
      }
    }
  }

  lemma {:induction false} NumberOf(n: nat, t: string, k: nat)
    ensures Number(Decimal(n) + t, k) == Number(t, k * Pow10(|Decimal(n)|) + n)
    decreases n
  {
    if n < 10 {
      assert Decimal(n) + t == [Digit(n)] + t;
      assert ([Digit(n)] + t)[1..] == t;
      assert Pow10(1) == 10 * Pow10(0);
    } else {
      var d := [Digit(n % 10)];
      assert Decimal(n) + t == Decimal(n / 10) + (d + t) by { Assoc(Decimal(n / 10), d, t); }
      NumberOf(n / 10, d + t, k);
      assert (d + t)[1..] == t;
      Shifted(k, Pow10(|Decimal(n / 10)|), n);
      assert Pow10(|Decimal(n)|) == 10 * Pow10(|Decimal(n / 10)|);
    }
  }

  lemma Shifted(k: nat, p: nat, n: nat)
    ensures 10 * (k * p + n / 10) + n % 10 == k * (10 * p) + n
  {
    assert n == 10 * (n / 10) + n % 10;
    assert 10 * (k * p) == k * (10 * p);
  }

  /** Printed numbers are read back. */
  lemma StoiReads(n: int)
    requires Int32(n)
    ensures Stoi(PrintInt(n)) == Some(n)
  {
    var m: nat := if n < 0 then -n else n;
    NumberOf(m, "", 0);
    assert Decimal(m) + "" == Decimal(m);
    var s := PrintInt(n);
    if n < 0 { assert s[1..] == Decimal(m); }
  }

  /** Which texts std::stoi reads, and as what: a sign or none, at least one digit, and then anything but a digit;
      nothing is read when there is no digit or the number has more than 32 bits. */
  lemma StoiIs(n: nat, zeros: nat, tail: string)
    requires tail == "" || !IsDigit(tail[0])
    ensures Stoi(Zeros(zeros) + Decimal(n) + tail) == if n < 0x8000_0000 then Some(n) else None
    ensures Stoi("+" + (Zeros(zeros) + Decimal(n) + tail)) == if n < 0x8000_0000 then Some(n) else None
    ensures Stoi("-" + (Zeros(zeros) + Decimal(n) + tail)) == if n <= 0x8000_0000 then Some(0 - n as int) else None
    ensures Stoi(tail) == None || (tail != "" && (tail[0] == '-' || tail[0] == '+'))
  {
    hide Decimal;
    var s := Zeros(zeros) + Decimal(n) + tail;
    ZerosRead(zeros, Decimal(n) + tail);
    Assoc(Zeros(zeros), Decimal(n), tail);
    NumberOf(n, tail, 0);
    assert IsDigit(s[0]) by {
      if zeros == 0 { assert s == Decimal(n) + tail; assert s[0] == Decimal(n)[0]; }
    }
    assert ("+" + s)[1..] == s && ("-" + s)[1..] == s;
  }

  function Zeros(k: nat): string {
    if k == 0 then "" else "0" + Zeros(k - 1)
  }

  lemma {:induction false} ZerosRead(k: nat, s: string)
    ensures Number(Zeros(k) + s, 0) == Number(s, 0)
    ensures k > 0 ==> (Zeros(k) + s)[0] == '0'
    decreases k
  {
    if k > 0 {
      Assoc("0", Zeros(k - 1), s);
      assert (Zeros(k) + s)[1..] == Zeros(k - 1) + s;
      ZerosRead(k - 1, s);
    } else {
      assert "" + s == s;
    }
  }

  /** Outside of every block. */
  predicate Idle(st: State) {
    st.check == Begain && !st.serverOpen && !st.locationOpen && !st.upstreamOpen
  }

  predicate InsideServer(st: State) {
    st.check == InServer && st.serverOpen && !st.locationOpen && !st.upstreamOpen
  }

  lemma OneLine(st: State, ws: seq<string>)
    ensures RunLines(st, [ws]) == Line(st, ws)
  {
    assert [ws][1..] == [];
  }

  lemma TwoLines(st: State, a: seq<string>, b: seq<string>)
    requires Line(st, a).status.LineOk?
    ensures RunLines(st, [a, b]) == Line(Line(st, a).state, b)
  {
    hide Line;
    assert [a, b][1..] == [b];
    OneLine(Line(st, a).state, b);
  }

  /** Both brace placements open a server block. */
  lemma ServerHeader(st: State, inline: bool)
    requires Idle(st)
    ensures var r := RunLines(st, Header(inline, ["server"]));
            r.status.LineOk? && InsideServer(r.state) && r.state.config == st.config
  {
    if inline {
      OneLine(st, ["server"] + ["{"]);
      assert (["server"] + ["{"])[1..] == ["{"];
    } else {
      TwoLines(st, ["server"], ["{"]);
      assert ["server"][1..] == [] && ["{"][1..] == [];
    }
  }

  lemma UpstreamHeader(st: State, inline: bool, name: string)
    requires Idle(st)
    ensures var r := RunLines(st, Header(inline, ["upstream", name]));
            r.status.LineOk? && r.state.check == InUpstream && r.state.upstreamOpen && !r.state.serverOpen
            && !r.state.locationOpen && r.state.curUpstream == name && r.state.config == WithUpstream(st.config, name)
  {
    var ws := ["upstream", name];
    if inline {
      OneLine(st, ws + ["{"]);
      assert (ws + ["{"])[1..] == [name, "{"] && [name, "{"][1..] == ["{"];
    } else {
      TwoLines(st, ws, ["{"]);
      assert ws[1..] == [name] && [name][1..] == [] && ["{"][1..] == [];
    }
  }

  lemma LocationHeader(st: State, inline: bool, id: string)
    requires InsideServer(st)
    ensures var r := RunLines(st, Header(inline, ["location", id]));
            r.status.LineOk? && r.state == st.(check := InLocation, curLocation := id, locationOpen := true,
                                               config := WithLocation(st.config, id))
  {
    var ws := ["location", id];
    if inline {
      OneLine(st, ws + ["{"]);
      assert (ws + ["{"])[1..] == [id, "{"] && [id, "{"][1..] == ["{"];
    } else {
      TwoLines(st, ws, ["{"]);
      assert ws[1..] == [id] && [id][1..] == [] && ["{"][1..] == [];
    }
  }

  lemma {:induction false} PassesRun(st: State, passes: seq<string>)
    requires st.check == InLocation && st.locationOpen
    ensures RunLines(st, PassLines(passes))
         == Result(LineOk, st.(config := PassesMean(st.config, st.curLocation, passes)))
    decreases |passes|
  {
    if passes != [] {
      var ws := ["proxy_pass", passes[0]];
      assert ws[1..] == [passes[0]] && Rest([passes[0]]) == [];
      var st' := st.(config := WithPass(st.config, st.curLocation, passes[0]));
      assert LocationWords(st', []) == Result(LineOk, st');
      assert Line(st, ws) == Result(LineOk, st');
      assert ([ws] + PassLines(passes[1..]))[1..] == PassLines(passes[1..]);
      PassesRun(st', passes[1..]);
    }
  }

  lemma LocationRuns(st: State, e: Entry)
    requires InsideServer(st) && e.Loc?
    ensures var r := RunLines(st, EntryLines(e));
            r.status.LineOk? && InsideServer(r.state) && r.state.config == EntryMeans(st.config, e)
  {
    hide Line, Header;
    LocationHeader(st, e.inline, e.id);
    RunLinesJoin(st, Header(e.inline, ["location", e.id]), PassLines(e.passes) + [["}"]]);
    var st1 := RunLines(st, Header(e.inline, ["location", e.id])).state;
    PassesRun(st1, e.passes);
    RunLinesJoin(st1, PassLines(e.passes), [["}"]]);
    CloseLocation(RunLines(st1, PassLines(e.passes)).state);
  }

  lemma CloseLocation(st: State)
    requires st.check == InLocation && st.locationOpen
    ensures RunLines(st, [["}"]]) == Result(LineOk, st.(locationOpen := false, check := InServer))
  {
    OneLine(st, ["}"]);
    assert ["}"][1..] == [];
  }

  lemma CloseServer(st: State)
    requires InsideServer(st)
    ensures RunLines(st, [["}"]]) == Result(LineOk, st.(serverOpen := false, check := Begain))
  {
    OneLine(st, ["}"]);
    assert ["}"][1..] == [];
  }

  lemma CloseUpstream(st: State)
    requires st.check == InUpstream && st.upstreamOpen
    ensures RunLines(st, [["}"]]) == Result(LineOk, st.(upstreamOpen := false, check := Begain))
  {
    OneLine(st, ["}"]);
    assert ["}"][1..] == [];
  }

  lemma EntryRuns(st: State, e: Entry)
    requires InsideServer(st) && EntryFits(e)
    ensures var r := RunLines(st, EntryLines(e));
            r.status.LineOk? && InsideServer(r.state) && r.state.config == EntryMeans(st.config, e)
  {
    match e {
      case Listen(port) =>
        hide Stoi, PrintInt;
        var ws := ["listen", PrintInt(port)];
        StoiReads(port);
        OneLine(st, ws);
        var st' := st.(config := st.config.(listen := port));
        assert ws[1..] == [PrintInt(port)] && Rest([PrintInt(port)]) == [];
        assert ServerWords(st', []) == Result(LineOk, st');
      case Name(name) =>
        var ws := ["server_name", name];
        OneLine(st, ws);
        var st' := st.(config := st.config.(serverName := name));
        assert ws[2..] == [] && ServerWords(st', []) == Result(LineOk, st');
      case Loc(_, _, _) => LocationRuns(st, e);
    }
  }

  lemma {:induction false} EntriesRun(st: State, es: seq<Entry>)
    requires InsideServer(st) && forall e <- es :: EntryFits(e)
    ensures var r := RunLines(st, EntriesLines(es));
            r.status.LineOk? && InsideServer(r.state) && r.state.config == EntriesMean(st.config, es)
    decreases |es|
  {
    hide Line, EntryLines, EntryMeans;
    if es != [] {
      assert EntryFits(es[0]);
      EntryRuns(st, es[0]);
      RunLinesJoin(st, EntryLines(es[0]), EntriesLines(es[1..]));
      EntriesRun(RunLines(st, EntryLines(es[0])).state, es[1..]);
    }
  }

  lemma {:induction false} ServersRun(st: State, servers: seq<Endpoint>)
    requires st.check == InUpstream && st.upstreamOpen && forall e: Endpoint <- servers :: ':' !in e.0
    ensures RunLines(st, ServerLines(servers))
         == Result(LineOk, st.(config := ServersMean(st.config, st.curUpstream, servers)))
    decreases |servers|
  {
    if servers != [] {
      var e := servers[0];
      assert e in servers;
      var st' := st.(config := WithServer(st.config, st.curUpstream, e));
      ServerRuns(st, e);
      var ws := ["server", e.0 + ":" + e.1];
      assert ([ws] + ServerLines(servers[1..]))[1..] == ServerLines(servers[1..]);
      hide Line, WithServer;
      ServersRun(st', servers[1..]);
    }
  }

  lemma ServerRuns(st: State, e: Endpoint)
    requires st.check == InUpstream && st.upstreamOpen && ':' !in e.0
    ensures Line(st, ["server", e.0 + ":" + e.1])
         == Result(LineOk, st.(config := WithServer(st.config, st.curUpstream, e)))
  {
    var text := e.0 + ":" + e.1;
    FindAcross("", e.0, ":" + e.1, ':');
    Assoc(e.0, ":", e.1);
    assert "" + e.0 + (":" + e.1) == text;
    assert text[..|e.0|] == e.0 && text[|e.0| + 1..] == e.1;
    var ws := ["server", text];
    assert ws[1..] == [text] && Rest([text]) == [];
    var st' := st.(config := WithServer(st.config, st.curUpstream, e));
    assert UpstreamWords(st', []) == Result(LineOk, st');
  }

  lemma NumberBlockRuns(st: State, b: Block)
    requires Idle(st) && BlockFits(b) && (b.Threads? || b.Queue?)
    ensures var r := RunLines(st, BlockLines(b));
            r.status.LineOk? && Idle(r.state) && r.state.config == BlockMeans(st.config, b)
  {
    hide Stoi, PrintInt;
    var n := if b.Threads? then b.count else b.size;
    var ws := [if b.Threads? then "threadNum" else "queSize", PrintInt(n)];
    StoiReads(n);
    OneLine(st, ws);
    assert ws[1..] == [PrintInt(n)];
  }

  lemma BlockRuns(st: State, b: Block)
    requires Idle(st) && BlockFits(b)
    ensures var r := RunLines(st, BlockLines(b));
            r.status.LineOk? && Idle(r.state) && r.state.config == BlockMeans(st.config, b)
  {
    hide Line, Header, RunLines, EntriesLines, ServerLines, EntriesMean, ServersMean;
    match b {
      case Threads(_) => NumberBlockRuns(st, b);
      case Queue(_) => NumberBlockRuns(st, b);
      case ServerBlock(inline, entries) =>
        var head := Header(inline, ["server"]);
        ServerHeader(st, inline);
        var st1 := RunLines(st, head).state;
        EntriesRun(st1, entries);
        RunLinesJoin(st, head, EntriesLines(entries) + [["}"]]);
        RunLinesJoin(st1, EntriesLines(entries), [["}"]]);
        CloseServer(RunLines(st1, EntriesLines(entries)).state);
      case UpstreamBlock(inline, name, servers) =>
        var head := Header(inline, ["upstream", name]);
        UpstreamHeader(st, inline, name);
        var st1 := RunLines(st, head).state;
        ServersRun(st1, servers);
        RunLinesJoin(st, head, ServerLines(servers) + [["}"]]);
        RunLinesJoin(st1, ServerLines(servers), [["}"]]);
        CloseUpstream(RunLines(st1, ServerLines(servers)).state);
    }
  }

  lemma {:induction false} BlocksRun(st: State, bs: seq<Block>)
    requires Idle(st) && forall b <- bs :: BlockFits(b)
    ensures var r := RunLines(st, WordLines(bs));
            r.status.LineOk? && Idle(r.state) && r.state.config == Means(st.config, bs)
    decreases |bs|
  {
    hide Line, BlockLines, BlockMeans;
    if bs != [] {
      assert BlockFits(bs[0]);
      BlockRuns(st, bs[0]);
      RunLinesJoin(st, BlockLines(bs[0]), WordLines(bs[1..]));
      BlocksRun(RunLines(st, BlockLines(bs[0])).state, bs[1..]);
    }
  }

  /** Layout independence: whatever the placement of the braces and whatever blank lines, comments
      and indentation are put in, parsing the file succeeds outside of every block and adds exactly
      what its blocks mean. */
  lemma ConfigFileIsRead(st: State, bs: seq<Block>, lines: seq<string>)
    requires Idle(st) && (forall b <- bs :: BlockFits(b)) && Renders(lines, WordLines(bs))
    ensures var r := ParseLines(st, lines);
            r.status.LineOk? && Idle(r.state) && r.state.config == Means(st.config, bs)
  {
    hide ParseLines, RunLines, Renders, WordLines, Means;
    BlocksRun(st, bs);
    ParsesRendered(st, lines, WordLines(bs));
  }

  // ---- Layout: lines of words to text ----

  predicate AllBlank(s: string) {
    forall c <- s :: IsBlank(c)
  }

  /** A word as it can stand in a file. */
  predicate Token(w: string) {
    w != "" && forall c <- w :: !IsSpace(c) && !IsNote(c)
  }

  /** A comment, or nothing. */
  predicate Note(s: string) {
    s == "" || IsNote(s[0])
  }

  /** The words with the gap that follows each. */
  function Spaced(ws: seq<string>, gaps: seq<string>): string
    requires |gaps| == |ws|
  {
    if ws == [] then "" else ws[0] + (gaps[0] + Spaced(ws[1..], gaps[1..]))
  }

  /** Gaps are blank, and only the last may be empty. */
  predicate GapsFit(ws: seq<string>, gaps: seq<string>) {
    |gaps| == |ws| && (forall g <- gaps :: AllBlank(g)) && forall i :: 0 <= i < |gaps| - 1 ==> gaps[i] != ""
  }

  predicate IsLaidOut(line: string, ws: seq<string>, indent: string, gaps: seq<string>, note: string) {
    AllBlank(indent) && ws != [] && (forall w <- ws :: Token(w)) && GapsFit(ws, gaps) && Note(note)
    && line == indent + (Spaced(ws, gaps) + note)
  }

  predicate IsFiller(line: string, indent: string, note: string) {
    AllBlank(indent) && Note(note) && line == indent + note
  }

  /** The lines of words in order, each with any indentation, spacing and comment, and any number
      of blank and comment lines between them. */
  ghost predicate Layout(lines: seq<string>, wls: seq<seq<string>>)
    decreases |lines|
  {
    if lines == [] then wls == []
    else
      || (Layout(lines[1..], wls) && exists indent, note :: IsFiller(lines[0], indent, note))
      || (wls != [] && Layout(lines[1..], wls[1..])
          && exists indent, gaps, note :: IsLaidOut(lines[0], wls[0], indent, gaps, note))
  }

  lemma {:induction false} SkipsBlanks(indent: string, t: string)
    requires AllBlank(indent) && (t == "" || !IsBlank(t[0]))
    ensures SkipBlanks(indent + t) == t
  {
    if indent == "" {
      assert "" + t == t;
    } else {
      assert indent[0] in indent;
      assert (indent + t)[1..] == indent[1..] + t;
      SkipsBlanks(indent[1..], t);
    }
  }

  lemma {:induction false} CutsNote(s: string, note: string)
    requires (forall c <- s :: !IsNote(c)) && Note(note)
    ensures BeforeNote(s + note) == s
  {
    if s == "" {
      assert "" + note == note;
    } else {
      assert s[0] in s;
      assert (s + note)[1..] == s[1..] + note;
      CutsNote(s[1..], note);
    }
  }

  lemma {:induction false} WordEnds(w: string, t: string)
    requires (forall c <- w :: !IsSpace(c)) && (t == "" || IsSpace(t[0]))
    ensures WordLength(w + t) == |w|
  {
    if w == "" {
      assert "" + t == t;
    } else {
      assert w[0] in w;
      assert (w + t)[1..] == w[1..] + t;
      WordEnds(w[1..], t);
    }
  }

  lemma {:induction false} WordsSkipGap(g: string, t: string)
    requires AllBlank(g)
    ensures Words(g + t) == Words(t)
  {
    if g == "" {
      assert "" + t == t;
    } else {
      assert g[0] in g;
      assert (g + t)[1..] == g[1..] + t;
      WordsSkipGap(g[1..], t);
    }
  }

  lemma FirstWord(w: string, t: string)
    requires Token(w) && (t == "" || IsSpace(t[0]))
    ensures Words(w + t) == [w] + Words(t)
  {
    WordEnds(w, t);
    assert w[0] in w && (w + t)[0] == w[0];
    assert (w + t)[..|w|] == w && (w + t)[|w|..] == t;
  }

  lemma {:induction false} WordsOfSpaced(ws: seq<string>, gaps: seq<string>)
    requires GapsFit(ws, gaps) && forall w <- ws :: Token(w)
    ensures Words(Spaced(ws, gaps)) == ws
    decreases |ws|
  {
    if ws != [] {
      assert Token(ws[0]) && AllBlank(gaps[0]);
      var t := gaps[0] + Spaced(ws[1..], gaps[1..]);
      if gaps[0] != "" {
        assert gaps[0][0] in gaps[0] && t[0] == gaps[0][0];
      } else {
        assert |ws| == 1 && t == "";
      }
      FirstWord(ws[0], t);
      WordsSkipGap(gaps[0], Spaced(ws[1..], gaps[1..]));
      GapsFitRest(ws, gaps);
      WordsOfSpaced(ws[1..], gaps[1..]);
      assert ws == [ws[0]] + ws[1..];
    }
  }

  lemma GapsFitRest(ws: seq<string>, gaps: seq<string>)
    requires GapsFit(ws, gaps) && ws != []
    ensures GapsFit(ws[1..], gaps[1..])
  {
    assert forall i :: 0 <= i < |gaps[1..]| ==> gaps[1..][i] == gaps[i + 1];
  }

  /** No word is lost with trailing blanks. */
  lemma {:induction false} WordsDropLast(s: string, b: char)
    requires IsSpace(b)
    ensures Words(s + [b]) == Words(s)
    decreases |s|
  {
    if s == "" {
      assert "" + [b] == [b] && [b][1..] == "";
    } else if IsSpace(s[0]) {
      assert (s + [b])[1..] == s[1..] + [b];
      WordsDropLast(s[1..], b);
    } else {
      var n := WordLength(s);
      WordLengthDropLast(s, b);
      assert (s + [b])[..n] == s[..n] && (s + [b])[n..] == s[n..] + [b];
      WordsDropLast(s[n..], b);
    }
  }

  lemma {:induction false} WordLengthDropLast(s: string, b: char)
    requires IsSpace(b)
    ensures WordLength(s + [b]) == WordLength(s)
  {
    if s == "" {
      assert "" + [b] == [b];
    } else {
      assert (s + [b])[1..] == s[1..] + [b];
      WordLengthDropLast(s[1..], b);
    }
  }

  lemma {:induction false} WordsOfDropped(s: string)
    requires forall c <- s :: !IsNote(c)
    ensures Words(DropBlanks(s)) == Words(s)
    decreases |s|
  {
    if s != "" {
      var front, last := s[..|s| - 1], s[|s| - 1];
      assert last in s && s == front + [last];
      if IsBlank(last) {
        WordsDropLast(front, last);
        WordsOfDropped(front);
      }
    }
  }

  lemma {:induction false} SpacedHasNoNote(ws: seq<string>, gaps: seq<string>)
    requires GapsFit(ws, gaps) && forall w <- ws :: Token(w)
    ensures forall c <- Spaced(ws, gaps) :: !IsNote(c)
    decreases |ws|
  {
    if ws != [] {
      assert Token(ws[0]) && AllBlank(gaps[0]);
      GapsFitRest(ws, gaps);
      SpacedHasNoNote(ws[1..], gaps[1..]);
    }
  }

  /** The words of any line are those before the first '#' or ';'. */
  lemma CommentsAreCut(s: string, note: string)
    requires '#' !in s && ';' !in s && (note == "" || note[0] == '#' || note[0] == ';')
    ensures Words(TrimLine(s + note)) == Words(s)
  {
    hide Words;
    var t := SkipBlanks(s);
    SkipKeepsWords(s);
    if t == "" && note == "" {
      assert s + note == s;
    } else {
      SkipsThrough(s, note);
      CutsNote(t, note);
      if note == "" {
        assert t + note == t;
        WordsOfDropped(t);
      } else {
        assert t + note != t by { assert |t + note| > |t|; }
      }
    }
  }

  lemma {:induction false} SkipKeepsWords(s: string)
    ensures Words(SkipBlanks(s)) == Words(s) && forall c <- SkipBlanks(s) :: c in s
  {
    if s != "" && IsBlank(s[0]) { SkipKeepsWords(s[1..]); }
  }

  lemma {:induction false} SkipsThrough(s: string, note: string)
    requires note == "" || note[0] == '#' || note[0] == ';'
    ensures SkipBlanks(s + note) == SkipBlanks(s) + note
  {
    if s == "" {
      assert s + note == note;
    } else {
      assert (s + note)[1..] == s[1..] + note;
      if IsBlank(s[0]) { SkipsThrough(s[1..], note); }
    }
  }

  /** A laid out line carries its words. */
  lemma LaidOutWords(line: string, ws: seq<string>, indent: string, gaps: seq<string>, note: string)
    requires IsLaidOut(line, ws, indent, gaps, note)
    ensures TrimLine(line) != "" && Words(TrimLine(line)) == ws
  {
    hide Words, DropBlanks, SkipBlanks, BeforeNote;
    var s := Spaced(ws, gaps);
    assert Token(ws[0]);
    assert ws[0][0] in ws[0] && (s + note)[0] == ws[0][0];
    SkipsBlanks(indent, s + note);
    SpacedHasNoNote(ws, gaps);
    CutsNote(s, note);
    WordsOfSpaced(ws, gaps);
    if note == "" {
      assert s + note == s;
      WordsOfDropped(s);
      NoWordsInNothing();
    }
  }

  lemma NoWordsInNothing()
    ensures Words("") == []
  {
  }

  lemma FillerIsEmpty(line: string, indent: string, note: string)
    requires IsFiller(line, indent, note)
    ensures TrimLine(line) == ""
  {
    SkipsBlanks(indent, note);
  }

  lemma {:induction false} LayoutRenders(lines: seq<string>, wls: seq<seq<string>>)
    requires Layout(lines, wls)
    ensures Renders(lines, wls)
    decreases |lines|
  {
    hide Words, TrimLine, IsLaidOut, IsFiller;
    if lines != [] {
      if Layout(lines[1..], wls) && exists indent, note :: IsFiller(lines[0], indent, note) {
        var indent, note :| IsFiller(lines[0], indent, note);
        FillerIsEmpty(lines[0], indent, note);
        LayoutRenders(lines[1..], wls);
      } else {
        var indent, gaps, note :| IsLaidOut(lines[0], wls[0], indent, gaps, note);
        LaidOutWords(lines[0], wls[0], indent, gaps, note);
        LayoutRenders(lines[1..], wls[1..]);
      }
    }
  }

  /** Layout independence, down to the characters. */
  lemma LayoutIndependence(st: State, bs: seq<Block>, lines: seq<string>)
    requires Idle(st) && (forall b <- bs :: BlockFits(b)) && Layout(lines, WordLines(bs))
    ensures var r := ParseLines(st, lines);
            r.status.LineOk? && Idle(r.state) && r.state.config == Means(st.config, bs)
  {
    LayoutRenders(lines, WordLines(bs));
    ConfigFileIsRead(st, bs, lines);
  }

  // ---- Merging ----

  /** The servers of all blocks with this name, in file order. */
  function ServersOf(bs: seq<Block>, name: string): seq<Endpoint> {
    if bs == [] then []
    else (if bs[0].UpstreamBlock? && bs[0].name == name then bs[0].servers else []) + ServersOf(bs[1..], name)
  }

  predicate HasUpstream(bs: seq<Block>, name: string) {
    exists b <- bs :: b.UpstreamBlock? && b.name == name
  }

  lemma {:induction false} ServersAppend(c: Config, name: string, servers: seq<Endpoint>)
    requires name in c.upstreams
    ensures ServersMean(c, name, servers)
         == c.(upstreams := c.upstreams[name := c.upstreams[name].(servers := c.upstreams[name].servers + servers)])
    decreases |servers|
  {
    var u := c.upstreams[name];
    if servers == [] {
      assert u.servers + servers == u.servers;
      assert c.upstreams[name := u] == c.upstreams;
    } else {
      ServersAppend(WithServer(c, name, servers[0]), name, servers[1..]);
      assert u.servers + [servers[0]] + servers[1..] == u.servers + servers;
    }
  }

  lemma {:induction false} EntriesKeepUpstreams(c: Config, es: seq<Entry>)
    ensures EntriesMean(c, es).upstreams == c.upstreams
    decreases |es|
  {
    if es != [] {
      if es[0].Loc? { PassesKeep(WithLocation(c, es[0].id), es[0].id, es[0].passes); }
      EntriesKeepUpstreams(EntryMeans(c, es[0]), es[1..]);
    }
  }

  lemma {:induction false} PassesKeep(c: Config, id: string, passes: seq<string>)
    requires id in c.locations
    ensures PassesMean(c, id, passes)
         == c.(locations := c.locations[id := c.locations[id].(proxyPass := LastOr(passes, c.locations[id].proxyPass))])
    decreases |passes|
  {
    if passes == [] {
      assert c.locations[id := c.locations[id]] == c.locations;
    } else {
      PassesKeep(WithPass(c, id, passes[0]), id, passes[1..]);
    }
  }

  function LastOr(ps: seq<string>, default: string): string {
    if ps == [] then default else ps[|ps| - 1]
  }

  /** Upstream blocks merge: after the file each name holds the servers it had, followed by those
      of all blocks of that name in file order. */
  lemma {:induction false} UpstreamsMerge(c: Config, bs: seq<Block>, name: string)
    ensures var after := Means(c, bs);
            (name in after.upstreams <==> name in c.upstreams || HasUpstream(bs, name))
            && (name in after.upstreams ==>
                  after.upstreams[name].servers == UpstreamAt(c, name).servers + ServersOf(bs, name))
    decreases |bs|
  {
    hide EntriesMean, PassesMean, ServersMean;
    if bs == [] {
      assert UpstreamAt(c, name).servers + [] == UpstreamAt(c, name).servers;
    } else {
      var b, c' := bs[0], BlockMeans(c, bs[0]);
      assert bs == [b] + bs[1..];
      UpstreamsMerge(c', bs[1..], name);
      if b.ServerBlock? {
        EntriesKeepUpstreams(c, b.entries);
      } else if b.UpstreamBlock? {
        ServersAppend(WithUpstream(c, b.name), b.name, b.servers);
        if b.name == name {
          Assoc(UpstreamAt(c, name).servers, b.servers, ServersOf(bs[1..], name));
        }
      }
      assert [] + ServersOf(bs[1..], name) == ServersOf(bs[1..], name);
    }
  }

  /** The proxy_pass targets given for a location, in file order. */
  function PassesOfEntries(es: seq<Entry>, id: string): seq<string> {
    if es == [] then []
    else (if es[0].Loc? && es[0].id == id then es[0].passes else []) + PassesOfEntries(es[1..], id)
  }

  function PassesOf(bs: seq<Block>, id: string): seq<string> {
    if bs == [] then []
    else (if bs[0].ServerBlock? then PassesOfEntries(bs[0].entries, id) else []) + PassesOf(bs[1..], id)
  }

  lemma LastOrJoin(a: seq<string>, b: seq<string>, d: string)
    ensures LastOr(a + b, d) == LastOr(b, LastOr(a, d))
  {
    if b == [] { assert a + b == a; }
  }

  lemma {:induction false} EntriesMerge(c: Config, es: seq<Entry>, id: string)
    ensures var after := EntriesMean(c, es);
            LocationAt(after, id).proxyPass == LastOr(PassesOfEntries(es, id), LocationAt(c, id).proxyPass)
            && (id in after.locations <==> id in c.locations || exists e <- es :: e.Loc? && e.id == id)
    decreases |es|
  {
    hide PassesMean;
    if es != [] {
      var e := es[0];
      assert es == [e] + es[1..];
      EntriesMerge(EntryMeans(c, e), es[1..], id);
      if e.Loc? { PassesKeep(WithLocation(c, e.id), e.id, e.passes); }
      var given := if e.Loc? && e.id == id then e.passes else [];
      LastOrJoin(given, PassesOfEntries(es[1..], id), LocationAt(c, id).proxyPass);
    }
  }

  lemma {:induction false} ServersKeepLocations(c: Config, name: string, servers: seq<Endpoint>)
    ensures ServersMean(c, name, servers).locations == c.locations
    decreases |servers|
  {
    if servers != [] { ServersKeepLocations(WithServer(c, name, servers[0]), name, servers[1..]); }
  }

  predicate HasLocation(bs: seq<Block>, id: string) {
    exists b <- bs :: b.ServerBlock? && exists e <- b.entries :: e.Loc? && e.id == id
  }

  /** Location blocks merge: after the file each location holds the last target given for its id. */
  lemma {:induction false} LocationsMerge(c: Config, bs: seq<Block>, id: string)
    ensures var after := Means(c, bs);
            LocationAt(after, id).proxyPass == LastOr(PassesOf(bs, id), LocationAt(c, id).proxyPass)
            && (id in after.locations <==> id in c.locations || HasLocation(bs, id))
    decreases |bs|
  {
    hide EntriesMean, PassesMean, ServersMean;
    if bs != [] {
      var b := bs[0];
      assert bs == [b] + bs[1..];
      LocationsMerge(BlockMeans(c, b), bs[1..], id);
      if b.ServerBlock? {
        EntriesMerge(c, b.entries, id);
      } else if b.UpstreamBlock? {
        ServersKeepLocations(WithUpstream(c, b.name), b.name, b.servers);
      }
      var given := if b.ServerBlock? then PassesOfEntries(b.entries, id) else [];
      LastOrJoin(given, PassesOf(bs[1..], id), LocationAt(c, id).proxyPass);
    }
  }

  // ---- The bracket flags ----

  /** At a line boundary: each flag is set only in its own state, and inside a location the server
      block around it is open. Outside of every block no flag is set. */
  predicate FlagsFit(st: State) {
    && (st.check == InLocation ==> st.serverOpen)
    && (st.serverOpen ==> st.check == InServer || st.check == InLocation)
    && (st.locationOpen ==> st.check == InLocation)
    && (st.upstreamOpen ==> st.check == InUpstream)
  }

  /** The words of a line that are not the argument of another; `location` ends the line. */
  function Directives(ws: seq<string>): seq<string>
    decreases |ws|
  {
    if ws == [] then []
    else if ws[0] == "location" then [ws[0]]
    else if ws[0] in {"server_name", "listen", "proxy_pass", "server"} then [ws[0]] + Directives(Rest(ws[1..]))
    else [ws[0]] + Directives(ws[1..])
  }

  function Last(ds: seq<string>): string {
    if ds == [] then "" else ds[|ds| - 1]
  }

  /** A brace closes the block and the line goes on, but ends neither by closing again nor by
      opening a location: "} {" and the like. */
  predicate Reopens(ws: seq<string>) {
    var ds := Directives(ws);
    "}" in ds && Last(ds) != "}" && Last(ds) != "location"
  }

  lemma LastOf(d: string, ds: seq<string>)
    ensures Last([d] + ds) == if ds == [] then d else Last(ds)
    ensures "}" in [d] + ds <==> d == "}" || "}" in ds
  {
  }

  /** Whether a block is open after directives that were accepted: a closed one can only be reopened. */
  function OpenAfter(ds: seq<string>, open: bool): bool {
    if ds == [] then open else Last(ds) != "}"
  }

  predicate ServerLeft(st: State, r: State, ds: seq<string>) {
    r.upstreamOpen == st.upstreamOpen
    && (Last(ds) == "location" ==> r.check == InLocation && r.serverOpen)
    && (Last(ds) != "location" ==>
          r.check == (if "}" in ds then Begain else st.check) && r.serverOpen == OpenAfter(ds, st.serverOpen)
          && r.locationOpen == st.locationOpen)
  }

  /** One directive before others. */
  lemma ServerLeftFirst(st: State, st': State, r: State, d: string, ds: seq<string>)
    requires ServerLeft(st', r, ds) && d != "location"
    requires st'.upstreamOpen == st.upstreamOpen && st'.locationOpen == st.locationOpen
    requires st'.serverOpen == (d != "}") && st'.check == if d == "}" then Begain else st.check
    ensures ServerLeft(st, r, [d] + ds)
  {
    LastOf(d, ds);
  }

  lemma {:induction false} ServerWordsLeave(st: State, ws: seq<string>)
    requires ServerWords(st, ws).status.LineOk?
    ensures ServerLeft(st, ServerWords(st, ws).state, Directives(ws))
    decreases |ws|
  {
    hide Stoi;
    if ws != [] && ws[0] != "location" {
      var st', more := st, ws[1..];
      if !st.serverOpen {
        st' := st.(serverOpen := true);
      } else if ws[0] == "server_name" {
        if |ws| == 1 { LastOf(ws[0], []); return; }
        st', more := st.(config := st.config.(serverName := ws[1])), ws[2..];
      } else if ws[0] == "listen" {
        st', more := st.(config := st.config.(listen := Stoi(FirstOr(ws[1..], "listen")).value)), Rest(ws[1..]);
      } else {
        st' := st.(serverOpen := false, check := Begain);
      }
      hide ServerLeft;
      ServerWordsLeave(st', more);
      ServerLeftFirst(st, st', ServerWords(st', more).state, ws[0], Directives(more));
    }
  }

  lemma {:induction false} LocationWordsLeave(st: State, ws: seq<string>)
    requires LocationWords(st, ws).status.LineOk? && (st.check == InLocation || st.check == InServer)
    ensures var r, ds := LocationWords(st, ws).state, Directives(ws);
            r.upstreamOpen == st.upstreamOpen && r.serverOpen == st.serverOpen && Last(ds) != "location"
            && r.check == (if "}" in ds then InServer else st.check) && r.locationOpen == OpenAfter(ds, st.locationOpen)
    decreases |ws|
  {
    if ws != [] {
      if !st.locationOpen {
        LastOf("{", Directives(ws[1..]));
        LocationWordsLeave(st.(locationOpen := true), ws[1..]);
      } else if ws[0] == "proxy_pass" {
        LastOf(ws[0], Directives(Rest(ws[1..])));
        var pass := FirstOr(ws[1..], LocationAt(st.config, st.curLocation).proxyPass);
        LocationWordsLeave(st.(config := WithPass(st.config, st.curLocation, pass)), Rest(ws[1..]));
      } else {
        LastOf("}", Directives(ws[1..]));
        LocationWordsLeave(st.(locationOpen := false, check := InServer), ws[1..]);
      }
    }
  }

  lemma {:induction false} UpstreamWordsLeave(st: State, ws: seq<string>)
    requires UpstreamWords(st, ws).status.LineOk? && (st.check == InUpstream || st.check == Begain)
    ensures var r, ds := UpstreamWords(st, ws).state, Directives(ws);
            r.serverOpen == st.serverOpen && r.locationOpen == st.locationOpen && Last(ds) != "location"
            && r.check == (if "}" in ds then Begain else st.check) && r.upstreamOpen == OpenAfter(ds, st.upstreamOpen)
    decreases |ws|
  {
    hide Find;
    if ws != [] {
      if !st.upstreamOpen {
        LastOf("{", Directives(ws[1..]));
        UpstreamWordsLeave(st.(upstreamOpen := true), ws[1..]);
      } else if ws[0] == "server" {
        LastOf(ws[0], Directives(Rest(ws[1..])));
        var text := FirstOr(ws[1..], "");
        var colon := Find(text, ':', 0);
        var e := (text[..colon], text[colon + 1..]);
        UpstreamWordsLeave(st.(config := WithServer(st.config, st.curUpstream, e)), Rest(ws[1..]));
      } else {
        LastOf("}", Directives(ws[1..]));
        UpstreamWordsLeave(st.(upstreamOpen := false, check := Begain), ws[1..]);
      }
    }
  }

  /** An accepted line inside a block keeps the flags in order if and only if it does not reopen a
      block that it has closed; one outside of every block always does. */
  lemma FlagsKeptIff(st: State, ws: seq<string>)
    requires FlagsFit(st) && Line(st, ws).status.LineOk?
    ensures FlagsFit(Line(st, ws).state) <==> (st.check == Begain || !Reopens(ws))
  {
    hide ServerWords, LocationWords, UpstreamWords, Stoi, Directives;
    match st.check {
      case Begain =>
      case InServer => ServerWordsLeave(st, ws);
      case InLocation => LocationWordsLeave(st, ws);
      case InUpstream => UpstreamWordsLeave(st, ws);
    }
  }

  /** Such a line: "} {" is accepted in an open server block and leaves its flag set outside of every block. */
  lemma ReopenedBlockIsStale(st: State)
    requires FlagsFit(st) && st.check == InServer && st.serverOpen
    ensures var r := Line(st, ["}", "{"]);
            r.status.LineOk? && r.state.check == Begain && r.state.serverOpen && !FlagsFit(r.state)
  {
    var ws := ["}", "{"];
    var st1 := st.(serverOpen := false, check := Begain);
    assert ws[1..] == ["{"] && ["{"][1..] == [];
    assert ServerWords(st1, ["{"]) == ServerWords(st1.(serverOpen := true), []);
  }

  lemma {:induction false} ClosingLast(ws: seq<string>)
    requires forall i :: 0 <= i < |ws| - 1 ==> ws[i] != "}"
    ensures !Reopens(ws)
    decreases |ws|
  {
    if ws != [] && ws[0] != "location" {
      var n := if ws[0] in {"server_name", "listen", "proxy_pass", "server"} && |ws| > 1 then 2 else 1;
      assert Directives(ws) == [ws[0]] + Directives(ws[n..]);
      LastOf(ws[0], Directives(ws[n..]));
      assert forall i :: 0 <= i < |ws[n..]| ==> ws[n..][i] == ws[i + n];
      ClosingLast(ws[n..]);
    }
  }

  /** In particular the flags are in order after every line of a file on which a closing brace is
      only ever the last word. */
  lemma {:induction false} FlagsFitThroughout(st: State, wls: seq<seq<string>>)
    requires FlagsFit(st) && RunLines(st, wls).status.LineOk?
    requires forall ws <- wls :: forall i :: 0 <= i < |ws| - 1 ==> ws[i] != "}"
    ensures FlagsFit(RunLines(st, wls).state)
    decreases |wls|
  {
    hide Line, FlagsFit, Reopens;
    if wls != [] {
      assert wls[0] in wls;
      ClosingLast(wls[0]);
      FlagsKeptIff(st, wls[0]);
      FlagsFitThroughout(Line(st, wls[0]).state, wls[1..]);
    }
  }

  // ---- A configuration printed and read back ----

  function LocEntries(c: Config, ids: seq<string>, brace: string -> bool): seq<Entry>
    requires forall id <- ids :: id in c.locations
  {
    if ids == [] then []
    else [Loc(brace(ids[0]), ids[0], [c.locations[ids[0]].proxyPass])] + LocEntries(c, ids[1..], brace)
  }

  function UpBlocks(c: Config, names: seq<string>, brace: string -> bool): seq<Block>
    requires forall n <- names :: n in c.upstreams
  {
    if names == [] then []
    else [UpstreamBlock(brace(names[0]), names[0], c.upstreams[names[0]].servers)] + UpBlocks(c, names[1..], brace)
  }

  /** A configuration as a file: the maps in any order of their keys, each block with either brace
      placement. */
  function AsBlocks(c: Config, ids: seq<string>, names: seq<string>, brace: string -> bool): seq<Block>
    requires (forall id <- ids :: id in c.locations) && forall n <- names :: n in c.upstreams
  {
    [Threads(c.threadNum), Queue(c.queSize),
     ServerBlock(brace("server"), [Listen(c.listen), Name(c.serverName)] + LocEntries(c, ids, brace))]
    + UpBlocks(c, names, brace)
  }

  /** Every entry is filed under its own name, and the numbers fit. */
  predicate Proper(c: Config) {
    && Int32(c.listen) && Int32(c.threadNum) && Int32(c.queSize)
    && (forall id | id in c.locations :: c.locations[id].id == id)
    && (forall n | n in c.upstreams ::
          c.upstreams[n].name == n && forall e: Endpoint <- c.upstreams[n].servers :: ':' !in e.0)
  }

  lemma MapGrows<V>(m: map<string, V>, ks: seq<string>, src: map<string, V>)
    requires ks != [] && forall k <- ks :: k in src
    ensures m[ks[0] := src[ks[0]]] + (map k | k in ks[1..] :: src[k]) == m + map k | k in ks :: src[k]
  {
    assert ks == [ks[0]] + ks[1..];
  }

  lemma OneLocation(c0: Config, c: Config, id: string, inline: bool)
    requires Proper(c) && id in c.locations && id !in c0.locations
    ensures EntryMeans(c0, Loc(inline, id, [c.locations[id].proxyPass]))
         == c0.(locations := c0.locations[id := c.locations[id]])
  {
    PassesKeep(WithLocation(c0, id), id, [c.locations[id].proxyPass]);
    assert c0.locations[id := Location(id, "")][id := c.locations[id]] == c0.locations[id := c.locations[id]];
  }

  lemma OneUpstream(c0: Config, c: Config, n: string, inline: bool)
    requires Proper(c) && n in c.upstreams && n !in c0.upstreams
    ensures BlockMeans(c0, UpstreamBlock(inline, n, c.upstreams[n].servers))
         == c0.(upstreams := c0.upstreams[n := c.upstreams[n]])
  {
    ServersAppend(WithUpstream(c0, n), n, c.upstreams[n].servers);
    assert [] + c.upstreams[n].servers == c.upstreams[n].servers;
    assert c0.upstreams[n := Upstream(n, [])][n := c.upstreams[n]] == c0.upstreams[n := c.upstreams[n]];
  }

  lemma {:induction false} LocEntriesMean(c0: Config, c: Config, ids: seq<string>, brace: string -> bool)
    requires Proper(c) && Distinct(ids) && forall id <- ids :: id in c.locations && id !in c0.locations
    ensures EntriesMean(c0, LocEntries(c, ids, brace))
         == c0.(locations := c0.locations + map id | id in ids :: c.locations[id])
    decreases |ids|
  {
    hide Proper, EntryMeans;
    if ids == [] {
      assert c0.locations + map[] == c0.locations;
    } else {
      OneLocation(c0, c, ids[0], brace(ids[0]));
      LocEntriesMean(c0.(locations := c0.locations[ids[0] := c.locations[ids[0]]]), c, ids[1..], brace);
      MapGrows(c0.locations, ids, c.locations);
    }
  }

  lemma {:induction false} UpBlocksMean(c0: Config, c: Config, names: seq<string>, brace: string -> bool)
    requires Proper(c) && Distinct(names) && forall n <- names :: n in c.upstreams && n !in c0.upstreams
    ensures Means(c0, UpBlocks(c, names, brace))
         == c0.(upstreams := c0.upstreams + map n | n in names :: c.upstreams[n])
    decreases |names|
  {
    hide Proper, BlockMeans;
    if names == [] {
      assert c0.upstreams + map[] == c0.upstreams;
    } else {
      OneUpstream(c0, c, names[0], brace(names[0]));
      UpBlocksMean(c0.(upstreams := c0.upstreams[names[0] := c.upstreams[names[0]]]), c, names[1..], brace);
      MapGrows(c0.upstreams, names, c.upstreams);
    }
  }

  lemma {:induction false} UpBlocksFit(c: Config, names: seq<string>, brace: string -> bool)
    requires Proper(c) && forall n <- names :: n in c.upstreams
    ensures forall b <- UpBlocks(c, names, brace) :: BlockFits(b)
  {
    if names != [] {
      assert names[0] in names;
      UpBlocksFit(c, names[1..], brace);
    }
  }

  lemma {:induction false} LocEntriesFit(c: Config, ids: seq<string>, brace: string -> bool)
    requires forall id <- ids :: id in c.locations
    ensures forall e <- LocEntries(c, ids, brace) :: EntryFits(e)
  {
    if ids != [] { LocEntriesFit(c, ids[1..], brace); }
  }

  lemma AsBlocksFit(c: Config, ids: seq<string>, names: seq<string>, brace: string -> bool)
    requires Proper(c) && (forall id <- ids :: id in c.locations) && forall n <- names :: n in c.upstreams
    ensures forall b <- AsBlocks(c, ids, names, brace) :: BlockFits(b)
  {
    UpBlocksFit(c, names, brace);
    LocEntriesFit(c, ids, brace);
    var es := [Listen(c.listen), Name(c.serverName)] + LocEntries(c, ids, brace);
    assert forall e <- es :: EntryFits(e);
  }

  lemma EntriesFirst(c: Config, e: Entry, es: seq<Entry>)
    ensures EntriesMean(c, [e] + es) == EntriesMean(EntryMeans(c, e), es)
  {
    assert ([e] + es)[1..] == es;
  }

  lemma MeansFirst(c: Config, b: Block, bs: seq<Block>)
    ensures Means(c, [b] + bs) == Means(BlockMeans(c, b), bs)
  {
    assert ([b] + bs)[1..] == bs;
  }

  lemma AllOf<V>(ks: seq<string>, m: map<string, V>)
    requires forall k :: k in ks <==> k in m
    ensures map[] + (map k | k in ks :: m[k]) == m
  {
  }

  lemma ServerBlockMeans(c0: Config, c: Config, ids: seq<string>, brace: string -> bool)
    requires Proper(c) && c0.locations == map[] && Distinct(ids) && (forall id :: id in ids <==> id in c.locations)
    ensures EntriesMean(c0, [Listen(c.listen), Name(c.serverName)] + LocEntries(c, ids, brace))
         == c0.(listen := c.listen, serverName := c.serverName, locations := c.locations)
  {
    hide LocEntries, EntriesMean, Proper;
    var es := LocEntries(c, ids, brace);
    var c1 := c0.(listen := c.listen);
    assert [Listen(c.listen), Name(c.serverName)] + es == [Listen(c.listen)] + ([Name(c.serverName)] + es);
    EntriesFirst(c0, Listen(c.listen), [Name(c.serverName)] + es);
    EntriesFirst(c1, Name(c.serverName), es);
    LocEntriesMean(c1.(serverName := c.serverName), c, ids, brace);
    AllOf(ids, c.locations);
  }

  lemma AsBlocksMean(c0: Config, c: Config, ids: seq<string>, names: seq<string>, brace: string -> bool)
    requires Proper(c) && c0.locations == map[] && c0.upstreams == map[]
    requires Distinct(ids) && (forall id :: id in ids <==> id in c.locations)
    requires Distinct(names) && (forall n :: n in names <==> n in c.upstreams)
    ensures Means(c0, AsBlocks(c, ids, names, brace)) == c
  {
    hide UpBlocks, LocEntries, EntriesMean, Means, Proper;
    var ups := UpBlocks(c, names, brace);
    var server := ServerBlock(brace("server"), [Listen(c.listen), Name(c.serverName)] + LocEntries(c, ids, brace));
    var c1 := c0.(threadNum := c.threadNum);
    var c2 := c1.(queSize := c.queSize);
    var c3 := c2.(listen := c.listen, serverName := c.serverName, locations := c.locations);
    assert AsBlocks(c, ids, names, brace) == [Threads(c.threadNum)] + ([Queue(c.queSize)] + ([server] + ups));
    MeansFirst(c0, Threads(c.threadNum), [Queue(c.queSize)] + ([server] + ups));
    MeansFirst(c1, Queue(c.queSize), [server] + ups);
    MeansFirst(c2, server, ups);
    ServerBlockMeans(c2, c, ids, brace);
    UpBlocksMean(c3, c, names, brace);
    AllOf(names, c.upstreams);
  }

  /** Config round trip: any proper configuration, printed with its keys in any order, either brace
      placement for every block and any indentation, spacing, comments and blank lines, is what a
      new parser holds after reading the file, and the parser stands outside of every block. */
  lemma ConfigRoundTrip(
    st: State, c: Config, ids: seq<string>, names: seq<string>, brace: string -> bool, lines: seq<string>)
    requires Proper(c) && Idle(st) && st.config.locations == map[] && st.config.upstreams == map[]
    requires Distinct(ids) && (forall id :: id in ids <==> id in c.locations)
    requires Distinct(names) && (forall n :: n in names <==> n in c.upstreams)
    requires Layout(lines, WordLines(AsBlocks(c, ids, names, brace)))
    ensures var r := ParseLines(st, lines);
            r.status.LineOk? && Idle(r.state) && r.state.config == c
  {
    hide ParseLines, Means, Layout, WordLines, AsBlocks;
    AsBlocksFit(c, ids, names, brace);
    LayoutIndependence(st, AsBlocks(c, ids, names, brace), lines);
    AsBlocksMean(st.config, c, ids, names, brace);
  }
}
