/** The proxy's configuration file: words, lines, and the four-state machine that reads them. */
module Configs {
  import opened Options
  import opened Bytes

  datatype Location = Location(id: string, proxyPass: string)
  type Endpoint = (string, string)   // ip, port
  datatype Upstream = Upstream(name: string, servers: seq<Endpoint>)

  datatype Config = Config(
    listen: int,
    serverName: string,
    locations: map<string, Location>,
    upstreams: map<string, Upstream>,
    threadNum: int,
    queSize: int)

  datatype CheckState = Begain | InServer | InUpstream | InLocation

  /** The parser between two lines. `word` is the last word read outside of every block; a line
      that has none leaves it alone. */
  datatype State = State(
    check: CheckState,
    curLocation: string,
    curUpstream: string,
    serverOpen: bool,
    locationOpen: bool,
    upstreamOpen: bool,
    word: string,
    config: Config)

  /** The exceptions. */
  datatype Error = ExpectedBlock | ExpectedBrace | BadNumber | UnexpectedEnd

  datatype Status = LineOk | LineBad | Thrown(error: Error)
  datatype Result = Result(status: Status, state: State)

  // ---- Characters, words and numbers ----

  predicate IsBlank(c: char) {
    c == ' ' || c == '\t' || c == '\n' || c == '\r'
  }

  predicate IsNote(c: char) {
    c == '#' || c == ';'
  }

  function SkipBlanks(s: string): string {
    if s != "" && IsBlank(s[0]) then SkipBlanks(s[1..]) else s
  }

  function DropBlanks(s: string): string {
    if s != "" && (IsBlank(s[|s| - 1]) || s[|s| - 1] == '#') then DropBlanks(s[..|s| - 1]) else s
  }

  function BeforeNote(s: string): string {
    if s == "" || IsNote(s[0]) then "" else [s[0]] + BeforeNote(s[1..])
  }

  /** The line without indentation, and without its comment or else its trailing blanks. */
  function TrimLine(s: string): string {
    var t := SkipBlanks(s);
    if BeforeNote(t) != t then BeforeNote(t) else DropBlanks(t)
  }

  /** The length of the word at the start of `s`. */
  function WordLength(s: string): (n: nat)
    ensures n <= |s|
  {
    if s == "" || IsSpace(s[0]) then 0 else 1 + WordLength(s[1..])
  }

  /** The words a string stream yields. */
  function Words(s: string): seq<string>
    decreases |s|
  {
    if s == "" then []
    else if IsSpace(s[0]) then Words(s[1..])
    else [s[..WordLength(s)]] + Words(s[WordLength(s)..])
  }

  predicate IsDigit(c: char) {
    '0' <= c <= '9'
  }

  /** The number the leading digits of `s` write, continuing from `n`. */
  function Number(s: string, n: nat): nat {
    if s == "" || !IsDigit(s[0]) then n else Number(s[1..], 10 * n + (s[0] - '0') as nat)
  }

  /** std::stoi: an optional sign and leading digits; text after them is ignored. */
  function Stoi(s: string): Option<int> {
    var signed := s != "" && (s[0] == '-' || s[0] == '+');
    var digits := if signed then s[1..] else s;
    if digits == "" || !IsDigit(digits[0]) then None else
    var n: int := Number(digits, 0);
    var v := if signed && s[0] == '-' then -n else n;
    if -0x8000_0000 <= v < 0x8000_0000 then Some(v) else None
  }

  // ---- One line ----

  /** `flag`, or true when the next word opens a block; any other word is ignored. */
  function Bracket(ws: seq<string>, flag: bool): bool {
    flag || (ws != [] && ws[0] == "{")
  }

  function FirstOr(ws: seq<string>, default: string): string {
    if ws == [] then default else ws[0]
  }

  function Rest(ws: seq<string>): seq<string> {
    if ws == [] then [] else ws[1..]
  }

  /** insert: an entry that is there already stays. */
  function WithLocation(c: Config, id: string): Config {
    if id in c.locations then c else c.(locations := c.locations[id := Location(id, "")])
  }

  function WithUpstream(c: Config, name: string): Config {
    if name in c.upstreams then c else c.(upstreams := c.upstreams[name := Upstream(name, [])])
  }

  /** operator[]: an entry that is not there is made. */
  function LocationAt(c: Config, id: string): Location {
    if id in c.locations then c.locations[id] else Location("", "")
  }

  function UpstreamAt(c: Config, name: string): Upstream {
    if name in c.upstreams then c.upstreams[name] else Upstream("", [])
  }

  function WithPass(c: Config, id: string, pass: string): Config {
    c.(locations := c.locations[id := LocationAt(c, id).(proxyPass := pass)])
  }

  function WithServer(c: Config, name: string, e: Endpoint): Config {
    var u := UpstreamAt(c, name);
    c.(upstreams := c.upstreams[name := u.(servers := u.servers + [e])])
  }

  function TopLine(st: State, ws: seq<string>): Result {
    var word := FirstOr(ws, st.word);
    var rest := Rest(ws);
    if word == "threadNum" || word == "queSize" then
      var value := FirstOr(rest, word);
      match Stoi(value)
      case None => Result(Thrown(BadNumber), st)
      case Some(n) =>
        var c := if word == "threadNum" then st.config.(threadNum := n) else st.config.(queSize := n);
        Result(LineOk, st.(word := value, config := c))
    else if word == "server" then
      Result(LineOk, st.(check := InServer, word := word, serverOpen := Bracket(rest, st.serverOpen)))
    else if word == "upstream" then
      var name := FirstOr(rest, "");
      Result(LineOk, st.(check := InUpstream, word := word, curUpstream := name,
                         config := WithUpstream(st.config, name),
                         upstreamOpen := Bracket(Rest(rest), st.upstreamOpen)))
    else Result(Thrown(ExpectedBlock), st)
  }

  function ServerWords(st: State, ws: seq<string>): Result
    decreases |ws|
  {
    if ws == [] then Result(LineOk, st)
    else if !st.serverOpen then
      if ws[0] == "{" then ServerWords(st.(serverOpen := true), ws[1..]) else Result(Thrown(ExpectedBrace), st)
    else if ws[0] == "server_name" then
      if |ws| == 1 then Result(LineOk, st)
      else ServerWords(st.(config := st.config.(serverName := ws[1])), ws[2..])
    else if ws[0] == "listen" then
      (match Stoi(FirstOr(ws[1..], "listen"))
       case None => Result(Thrown(BadNumber), st)
       case Some(n) => ServerWords(st.(config := st.config.(listen := n)), Rest(ws[1..])))
    else if ws[0] == "location" then
      var id := FirstOr(ws[1..], "");
      Result(LineOk, st.(check := InLocation, curLocation := id, config := WithLocation(st.config, id),
                         locationOpen := Bracket(Rest(ws[1..]), st.locationOpen)))
    else if ws[0] == "}" then ServerWords(st.(serverOpen := false, check := Begain), ws[1..])
    else Result(LineBad, st)
  }

  function LocationWords(st: State, ws: seq<string>): Result
    decreases |ws|
  {
    if ws == [] then Result(LineOk, st)
    else if !st.locationOpen then
      if ws[0] == "{" then LocationWords(st.(locationOpen := true), ws[1..]) else Result(Thrown(ExpectedBrace), st)
    else if ws[0] == "proxy_pass" then
      var pass := FirstOr(ws[1..], LocationAt(st.config, st.curLocation).proxyPass);
      LocationWords(st.(config := WithPass(st.config, st.curLocation, pass)), Rest(ws[1..]))
    else if ws[0] == "}" then LocationWords(st.(locationOpen := false, check := InServer), ws[1..])
    else Result(LineBad, st)
  }

  function UpstreamWords(st: State, ws: seq<string>): Result
    decreases |ws|
  {
    if ws == [] then Result(LineOk, st)
    else if !st.upstreamOpen then
      if ws[0] == "{" then UpstreamWords(st.(upstreamOpen := true), ws[1..]) else Result(Thrown(ExpectedBrace), st)
    else if ws[0] == "server" then
      var text := FirstOr(ws[1..], "");
      var colon := Find(text, ':', 0);
      if colon == |text| then Result(LineBad, st)
      else
        var e := (text[..colon], text[colon + 1..]);
        UpstreamWords(st.(config := WithServer(st.config, st.curUpstream, e)), Rest(ws[1..]))
    else if ws[0] == "}" then UpstreamWords(st.(upstreamOpen := false, check := Begain), ws[1..])
    else Result(LineBad, st)
  }

  /** One line that is not empty after trimming, given by its words. */
  function Line(st: State, ws: seq<string>): Result {
    match st.check
    case Begain => TopLine(st, ws)
    case InServer => ServerWords(st, ws)
    case InLocation => LocationWords(st, ws)
    case InUpstream => UpstreamWords(st, ws)
  }

  /** The whole file; a bad line and an open block are both an unexpected end. */
  function ParseLines(st: State, lines: seq<string>): Result
    decreases |lines|
  {
    if lines == [] then (if st.check == Begain then Result(LineOk, st) else Result(Thrown(UnexpectedEnd), st))
    else if TrimLine(lines[0]) == "" then ParseLines(st, lines[1..])
    else
      var r := Line(st, Words(TrimLine(lines[0])));
      match r.status
      case LineOk => ParseLines(r.state, lines[1..])
      case LineBad => Result(Thrown(UnexpectedEnd), r.state)
      case Thrown(e) => r
  }

  /** A parser object with the fields of the source; `ws` and an index stand for its string streams. */
  class Parser {
    var check: CheckState
    var curLocation: string
    var curUpstream: string
    var serverOpen: bool
    var locationOpen: bool
    var upstreamOpen: bool
    var word: string
    var config: Config

    ghost function View(): State
      reads this
    {
      State(check, curLocation, curUpstream, serverOpen, locationOpen, upstreamOpen, word, config)
    }

    // threadNum, queSize and listen start with whatever is in memory.
    constructor (threadNum: int, queSize: int, listen: int)
      ensures View() == State(Begain, "", "", false, false, false, "",
                              Config(listen, "", map[], map[], threadNum, queSize))
    {
      check, curLocation, curUpstream, word := Begain, "", "", "";
      serverOpen, locationOpen, upstreamOpen := false, false, false;
      config := Config(listen, "", map[], map[], threadNum, queSize);
    }

    method Parse(lines: seq<string>) returns (status: Status)
      modifies this
      ensures status == ParseLines(old(View()), lines).status
      ensures status == LineOk ==> View() == ParseLines(old(View()), lines).state
    {
      hide Words, TrimLine, TopLine, ServerWords, LocationWords, UpstreamWords;
      var i := 0;
      while i < |lines|
        invariant 0 <= i <= |lines|
        invariant ParseLines(View(), lines[i..]) == ParseLines(old(View()), lines)
      {
        var line := TrimLine(lines[i]);
        assert lines[i..][1..] == lines[i + 1..];
        i := i + 1;
        if line != "" {
          var ws := Words(line);
          match check {
            case Begain => status := ParseTop(ws);
            case InServer => status := ParseServer(ws);
            case InLocation => status := ParseLocation(ws);
            case InUpstream => status := ParseUpstream(ws);
          }
          if status == LineBad { return Thrown(UnexpectedEnd); }
          if status != LineOk { return; }
        }
      }
      status := if check == Begain then LineOk else Thrown(UnexpectedEnd);
    }

    method ParseTop(ws: seq<string>) returns (status: Status)
      modifies this
      ensures status == TopLine(old(View()), ws).status
      ensures status == LineOk ==> View() == TopLine(old(View()), ws).state
    {
      status := LineOk;
      if ws != [] { word := ws[0]; }
      if word == "threadNum" || word == "queSize" {
        var name := word;
        if |ws| > 1 { word := ws[1]; }
        var value := Stoi(word);
        if value == None { return Thrown(BadNumber); }
        if name == "threadNum" {
          config := config.(threadNum := value.value);
        } else {
          config := config.(queSize := value.value);
        }
      } else if word == "server" {
        check := InServer;
        serverOpen := Bracket(Rest(ws), serverOpen);
      } else if word == "upstream" {
        check := InUpstream;
        curUpstream := FirstOr(Rest(ws), "");
        config := WithUpstream(config, curUpstream);
        upstreamOpen := Bracket(Rest(Rest(ws)), upstreamOpen);
      } else {
        status := Thrown(ExpectedBlock);
      }
    }

    method ParseServer(ws: seq<string>) returns (status: Status)
      modifies this
      ensures status == ServerWords(old(View()), ws).status
      ensures status == LineOk ==> View() == ServerWords(old(View()), ws).state
    {
      hide Stoi;
      var i := 0;
      while i < |ws|
        invariant 0 <= i <= |ws|
        invariant ServerWords(View(), ws[i..]) == ServerWords(old(View()), ws)
      {
        var w := ws[i];
        i := i + 1;
        SplitWords(ws, i);
        if !serverOpen {
          if w != "{" { return Thrown(ExpectedBrace); }
          serverOpen := true;
        } else if w == "server_name" {
          if i == |ws| { return LineOk; }
          config := config.(serverName := ws[i]);
          i := i + 1;
        } else if w == "listen" {
          if i < |ws| { w := ws[i]; i := i + 1; }
          var value := Stoi(w);
          if value == None { return Thrown(BadNumber); }
          config := config.(listen := value.value);
        } else if w == "location" {
          check := InLocation;
          curLocation := FirstOr(ws[i..], "");
          config := WithLocation(config, curLocation);
          locationOpen := Bracket(Rest(ws[i..]), locationOpen);
          return LineOk;
        } else if w == "}" {
          serverOpen := false;
          check := Begain;
        } else {
          return LineBad;
        }
      }
      status := LineOk;
    }

    method ParseLocation(ws: seq<string>) returns (status: Status)
      modifies this
      ensures status == LocationWords(old(View()), ws).status
      ensures status == LineOk ==> View() == LocationWords(old(View()), ws).state
    {
      var i := 0;
      while i < |ws|
        invariant 0 <= i <= |ws|
        invariant LocationWords(View(), ws[i..]) == LocationWords(old(View()), ws)
      {
        var w := ws[i];
        i := i + 1;
        SplitWords(ws, i);
        if !locationOpen {
          if w != "{" { return Thrown(ExpectedBrace); }
          locationOpen := true;
        } else if w == "proxy_pass" {
          var pass := LocationAt(config, curLocation).proxyPass;
          if i < |ws| { pass := ws[i]; i := i + 1; }
          config := WithPass(config, curLocation, pass);
        } else if w == "}" {
          locationOpen := false;
          check := InServer;
        } else {
          return LineBad;
        }
      }
      status := LineOk;
    }

    method ParseUpstream(ws: seq<string>) returns (status: Status)
      modifies this
      ensures status == UpstreamWords(old(View()), ws).status
      ensures status == LineOk ==> View() == UpstreamWords(old(View()), ws).state
    {
      hide Find;
      var i := 0;
      while i < |ws|
        invariant 0 <= i <= |ws|
        invariant UpstreamWords(View(), ws[i..]) == UpstreamWords(old(View()), ws)
      {
        var w := ws[i];
        i := i + 1;
        SplitWords(ws, i);
        if !upstreamOpen {
          if w != "{" { return Thrown(ExpectedBrace); }
          upstreamOpen := true;
        } else if w == "server" {
          var text := "";
          if i < |ws| { text := ws[i]; i := i + 1; }
          var colon := Find(text, ':', 0);
          if colon == |text| { return LineBad; }
          config := WithServer(config, curUpstream, (text[..colon], text[colon + 1..]));
        } else if w == "}" {
          upstreamOpen := false;
          check := Begain;
        } else {
          return LineBad;
        }
      }
      status := LineOk;
    }
  }

  lemma SplitWords(ws: seq<string>, i: nat)
    requires 0 < i <= |ws|
    ensures ws[i - 1..] != [] && ws[i - 1..][0] == ws[i - 1] && ws[i - 1..][1..] == ws[i..]
    ensures i < |ws| ==> ws[i..] != [] && ws[i..][0] == ws[i] && ws[i..][1..] == ws[i + 1..]
    ensures i < |ws| ==> ws[i - 1..][2..] == ws[i + 1..]
    ensures i < |ws| ==> ws[i - 1..][1] == ws[i]
  {
  }
}
