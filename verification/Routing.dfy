/** What the proxy reads from and writes into the messages it forwards. */
module Routing {
  import opened Sequences
  import opened Options
  import opened Bytes
  import opened HttpRequests
  import opened HttpContexts

  // ---- Which table entry serves a path ----

  /** A length at which a key may end: the whole path, just after a '/', or just before one. */
  predicate Stop(path: string, n: nat) {
    2 <= n <= |path| && (n == |path| || path[n - 1] == '/' || path[n] == '/')
  }

  /** The longest admissible key among the prefixes of at most `n` bytes. */
  function PrefixUpTo(path: string, keys: set<string>, n: nat): Option<string>
    requires n <= |path|
  {
    if n < 2 then None
    else if Stop(path, n) && path[..n] in keys then Some(path[..n])
    else PrefixUpTo(path, keys, n - 1)
  }

  function ForwardPrefix(path: string, keys: set<string>): Option<string> {
    PrefixUpTo(path, keys, |path|)
  }

  ghost predicate Serves(path: string, keys: set<string>, n: nat) {
    Stop(path, n) && path[..n] in keys
  }

  lemma ServesIs(path: string, keys: set<string>, n: nat)
    ensures Serves(path, keys, n) <==>
              2 <= n <= |path| && path[..n] in keys && (n == |path| || path[n - 1] == '/' || path[n] == '/')
  {
  }

  lemma {:induction false} PrefixUpToIsLongest(path: string, keys: set<string>, n: nat)
    requires n <= |path|
    ensures match PrefixUpTo(path, keys, n)
            case Some(key) => |key| <= n && Serves(path, keys, |key|) && key == path[..|key|]
                              && forall m: nat :: |key| < m <= n ==> !Serves(path, keys, m)
            case None => forall m: nat :: m <= n ==> !Serves(path, keys, m)
  {
    if n >= 2 && !Serves(path, keys, n) { PrefixUpToIsLongest(path, keys, n - 1); }
  }

  /** Longest-prefix routing: a path is served exactly when some admissible prefix of it is a key,
      and then by the longest one. */
  lemma LongestPrefix(path: string, keys: set<string>)
    ensures ForwardPrefix(path, keys).Some? <==> exists n :: Serves(path, keys, n)
    ensures ForwardPrefix(path, keys).Some? ==>
      var key := ForwardPrefix(path, keys).value;
      key in keys && key <= path && Serves(path, keys, |key|)
      && forall m: nat :: |key| < m ==> !Serves(path, keys, m)
  {
    PrefixUpToIsLongest(path, keys, |path|);
    if ForwardPrefix(path, keys).Some? {
      assert Serves(path, keys, |ForwardPrefix(path, keys).value|);
    }
  }

  /** Between the places where the source looks there is no place for a key to end. */
  lemma {:induction false} NothingBetween(path: string, keys: set<string>, n: nat, m: nat)
    requires m <= n <= |path|
    requires forall k: nat :: m < k <= n ==> !Serves(path, keys, k)
    ensures PrefixUpTo(path, keys, n) == PrefixUpTo(path, keys, m)
  {
    if m < n {
      assert !Serves(path, keys, n);
      NothingBetween(path, keys, n - 1, m);
    }
  }

  // The source keeps `pos` in an int: -1 for the empty path and when no '/' is left.
  method FindForwardPath(path: string, table: map<string, seq<int>>) returns (found: bool, businessCode: string)
    ensures (if found then Some(businessCode) else None) == ForwardPrefix(path, table.Keys)
  {
    hide PrefixUpTo;
    businessCode := "";
    var pos := |path| - 1;
    while pos > 0
      invariant -1 <= pos < |path|
      invariant pos >= 0 ==> Stop(path, pos + 1) || pos == 0
      invariant ForwardPrefix(path, table.Keys) == PrefixUpTo(path, table.Keys, pos + 1)
      decreases pos
    {
      PrefixStep(path, table.Keys, pos + 1);
      if path[..pos + 1] in table {
        return true, path[..pos + 1];
      }
      var next := pos - 1;
      if path[pos] != '/' {
        next := FindLast(path, '/', pos);
        FindLastIsLast(path, '/', pos);
      }
      NothingBetween(path, table.Keys, pos + 1, next + 1);
      pos := next;
    }
    PrefixStep(path, table.Keys, pos + 1);
    found := false;
  }

  lemma PrefixStep(path: string, keys: set<string>, n: nat)
    requires n <= |path|
    ensures n < 2 ==> PrefixUpTo(path, keys, n) == None
    ensures Serves(path, keys, n) ==> PrefixUpTo(path, keys, n) == Some(path[..n])
  {
  }

  // ---- The request line, as the proxy reads it ----

  datatype Route = Route(verb: string, path: string, protocol: string, businessCode: string)

  /** A line cut at its first and its last blank. */
  function Cuts(l: string): Option<(string, string, string)> {
    var first, last := Find(l, ' ', 0), FindLast(l, ' ', |l| - 1);
    if first == |l| || last <= first then None else Some((l[..first], l[first + 1..last], l[last + 1..]))
  }

  /** Reading a line that still carries its '\r'; the last byte is dropped whatever it is. */
  function RouteOf(line: string, keys: set<string>): Option<Route> {
    var l := if line == "" then "" else line[..|line| - 1];
    if Cuts(l) == None then None else
    var (verb, path, protocol) := Cuts(l).value;
    var code := ForwardPrefix(path, keys);
    if (verb == "GET" || verb == "POST") && code.Some? && (protocol == "HTTP/1.1" || protocol == "HTTP/1.0")
    then Some(Route(verb, path, protocol, code.value))
    else None
  }

  method ParseRequestLine(text: string, table: map<string, seq<int>>)
    returns (ok: bool, path: string, businessCode: string)
    ensures ok <==> RouteOf(text, table.Keys).Some?
    ensures ok ==> path == RouteOf(text, table.Keys).value.path
    ensures ok ==> businessCode == RouteOf(text, table.Keys).value.businessCode
  {
    hide PrefixUpTo, Find, FindLast;
    path, businessCode := "", "";
    var line := if text == "" then "" else text[..|text| - 1];
    var blankPos1 := Find(line, ' ', 0);
    if blankPos1 == |line| { return false, path, businessCode; }
    LastBlank(line);
    var verb := line[..blankPos1];
    if verb != "GET" && verb != "POST" { return false, path, businessCode; }
    var blankPos2 := FindLast(line, ' ', |line| - 1);
    if blankPos2 == blankPos1 { return false, path, businessCode; }
    path := line[blankPos1 + 1..blankPos2];
    ok, businessCode := FindForwardPath(path, table);
    if !ok { return; }
    var protocol := line[blankPos2 + 1..];
    if protocol != "HTTP/1.1" && protocol != "HTTP/1.0" { return false, path, businessCode; }
  }

  lemma LastBlank(line: string)
    requires Find(line, ' ', 0) < |line|
    ensures Find(line, ' ', 0) <= FindLast(line, ' ', |line| - 1)
  {
    FindFirst(line, ' ', 0);
    FindLastIsLast(line, ' ', |line| - 1);
  }

  function Blanks(s: string): nat {
    if s == "" then 0 else (if s[0] == ' ' then 1 else 0) + Blanks(s[1..])
  }

  lemma {:induction false} BlanksJoin(s: string, t: string)
    ensures Blanks(s + t) == Blanks(s) + Blanks(t)
  {
    if s == "" {
      assert s + t == t;
    } else {
      assert (s + t)[1..] == s[1..] + t;
      BlanksJoin(s[1..], t);
    }
  }

  lemma {:induction false} NoBlanks(s: string)
    ensures Blanks(s) == 0 <==> ' ' !in s
  {
    if s != "" {
      assert s == [s[0]] + s[1..];
      NoBlanks(s[1..]);
    }
  }

  lemma BlanksOfShape(line: string, m: string, path: string, v: string)
    requires line == m + (" " + (path + (" " + v))) && ' ' !in m && ' ' !in v
    ensures Blanks(line) == 2 + Blanks(path)
  {
    hide Blanks;
    BlanksJoin(m, " " + (path + (" " + v)));
    BlanksJoin(" ", path + (" " + v));
    BlanksJoin(path, " " + v);
    BlanksJoin(" ", v);
    NoBlanks(m);
    NoBlanks(v);
    OneBlank();
  }

  lemma OneBlank()
    ensures Blanks(" ") == 1
  {
    assert " "[1..] == "";
  }

  lemma BlanksAtEnds(line: string)
    requires Find(line, ' ', 0) < |line|
    ensures var first, last := Find(line, ' ', 0), FindLast(line, ' ', |line| - 1);
            first <= last && line[first] == ' ' && line[last] == ' '
            && ' ' !in line[..first] && ' ' !in line[last + 1..]
  {
    FindFirst(line, ' ', 0);
    FindLastIsLast(line, ' ', |line| - 1);
  }

  lemma CutsAre(l: string)
    requires Cuts(l).Some?
    ensures var first, last := Find(l, ' ', 0), FindLast(l, ' ', |l| - 1);
            first < |l| && first < last && Cuts(l).value == (l[..first], l[first + 1..last], l[last + 1..])
  {
    hide Find, FindLast;
  }

  lemma CutsJoin(l: string)
    requires Cuts(l).Some?
    ensures var cut := Cuts(l).value;
            l == cut.0 + (" " + (cut.1 + (" " + cut.2))) && ' ' !in cut.0 && ' ' !in cut.2
  {
    hide Find, FindLast, Cuts;
    CutsAre(l);
    BlanksAtEnds(l);
    SplitTwice(l, Find(l, ' ', 0), FindLast(l, ' ', |l| - 1));
  }

  lemma RouteOfLine(whole: string, line: string, keys: set<string>)
    requires whole != "" && whole[..|whole| - 1] == line && RouteOf(whole, keys).Some?
    ensures var r := RouteOf(whole, keys).value;
            Cuts(line) == Some((r.verb, r.path, r.protocol)) && ForwardPrefix(r.path, keys) == Some(r.businessCode)
  {
    hide Cuts, ForwardPrefix;
    var r := RouteOf(whole, keys).value;
    var cut := Cuts(line).value;
    assert cut == (cut.0, cut.1, cut.2);
    assert r == Route(cut.0, cut.1, cut.2, ForwardPrefix(cut.1, keys).value);
  }

  /** What the proxy has accepted is method, blank, path, blank, version; the path may hold blanks. */
  lemma RouteShape(line: string, keys: set<string>)
    requires RouteOf(line + "\r", keys).Some?
    ensures var r := RouteOf(line + "\r", keys).value;
            line == r.verb + (" " + (r.path + (" " + r.protocol)))
            && ' ' !in r.verb && ' ' !in r.protocol && ForwardPrefix(r.path, keys) == Some(r.businessCode)
  {
    hide Cuts, ForwardPrefix, RouteOf;
    var whole := line + "\r";
    assert whole[..|whole| - 1] == line;
    RouteOfLine(whole, line, keys);
    CutsJoin(line);
  }

  lemma FindLastBefore(pre: string, seg: string)
    requires ' ' !in seg
    ensures FindLast(pre + (" " + seg), ' ', |pre| + |seg|) == |pre|
  {
    var s := pre + (" " + seg);
    FindLastIsLast(s, ' ', |pre| + |seg|);
    assert s[|pre|] == ' ';
    assert forall k | |pre| < k <= |pre| + |seg| :: s[k] == seg[k - |pre| - 1];
  }

  lemma FindFirstBefore(seg: string, rest: string)
    requires ' ' !in seg
    ensures Find(seg + (" " + rest), ' ', 0) == |seg|
  {
    FindAcross("", seg, " " + rest, ' ');
    assert "" + seg + (" " + rest) == seg + (" " + rest);
  }

  /** And every such line with a known method and version and a served path is accepted. */
  lemma ShapeRoutes(verb: string, path: string, protocol: string, keys: set<string>)
    requires (verb == "GET" || verb == "POST") && (protocol == "HTTP/1.1" || protocol == "HTTP/1.0")
    requires ForwardPrefix(path, keys).Some?
    ensures RouteOf(verb + (" " + (path + (" " + protocol))) + "\r", keys)
         == Some(Route(verb, path, protocol, ForwardPrefix(path, keys).value))
  {
    hide Find, FindLast, ForwardPrefix;
    var l := verb + (" " + (path + (" " + protocol)));
    assert (l + "\r")[..|l + "\r"| - 1] == l;
    FindFirstBefore(verb, path + (" " + protocol));
    var pre := verb + " " + path;
    assert l == pre + (" " + protocol) by {
      Assoc(verb, " ", path + (" " + protocol));
      Assoc(verb + " ", path, " " + protocol);
    }
    FindLastBefore(pre, protocol);
    assert l[..|verb|] == verb && l[|verb| + 1..|pre|] == path && l[|pre| + 1..] == protocol;
  }

  /** The request is a GET or a POST with a known version, and `key` is the longest location that serves its
      path; the byte after the line is not looked at. */
  ghost predicate RoutesTo(line: string, keys: set<string>, key: string) {
    exists verb, path, protocol ::
      IsRouted(line, verb, path, protocol) && IsLongest(path, keys, key)
  }

  ghost predicate IsLongest(path: string, keys: set<string>, key: string) {
    key in keys && key <= path && Serves(path, keys, |key|) && forall m: nat :: |key| < m ==> !Serves(path, keys, m)
  }

  predicate IsRouted(line: string, verb: string, path: string, protocol: string) {
    && line != "" && line[..|line| - 1] == verb + (" " + (path + (" " + protocol)))
    && (verb == "GET" || verb == "POST") && (protocol == "HTTP/1.1" || protocol == "HTTP/1.0")
  }

  /** Exactly such lines are accepted, under exactly that location. */
  lemma RouteIff(line: string, keys: set<string>, key: string)
    ensures RoutesTo(line, keys, key) <==> RouteOf(line, keys).Some? && RouteOf(line, keys).value.businessCode == key
  {
    hide ForwardPrefix, Find, FindLast, PrefixUpTo;
    if RoutesTo(line, keys, key) {
      var verb, path, protocol :| IsRouted(line, verb, path, protocol) && IsLongest(path, keys, key);
      LongestPrefix(path, keys);
      LongestIsKey(path, keys, key);
      LastByteIsFree(line, keys);
      ShapeRoutes(verb, path, protocol, keys);
    }
    if RouteOf(line, keys).Some? && RouteOf(line, keys).value.businessCode == key {
      var r := RouteOf(line, keys).value;
      LastByteIsFree(line, keys);
      RouteShape(line[..|line| - 1], keys);
      RouteNames(line, keys);
      LongestPrefix(r.path, keys);
      assert IsRouted(line, r.verb, r.path, r.protocol);
    }
  }

  lemma LongestIsKey(path: string, keys: set<string>, key: string)
    requires IsLongest(path, keys, key)
    ensures ForwardPrefix(path, keys) == Some(key)
  {
    hide PrefixUpTo;
    LongestPrefix(path, keys);
    var found := ForwardPrefix(path, keys).value;
    assert |found| == |key|;
    assert found == path[..|found|] && key == path[..|key|];
  }

  lemma LastByteIsFree(line: string, keys: set<string>)
    ensures line != "" ==> RouteOf(line, keys) == RouteOf(line[..|line| - 1] + "\r", keys)
    ensures line == "" ==> RouteOf(line, keys) == None
  {
    hide ForwardPrefix;
    if line != "" {
      var l := line[..|line| - 1];
      assert (l + "\r")[..|l|] == l;
    }
  }

  lemma RouteNames(line: string, keys: set<string>)
    requires RouteOf(line, keys).Some?
    ensures var r := RouteOf(line, keys).value;
            (r.verb == "GET" || r.verb == "POST") && (r.protocol == "HTTP/1.1" || r.protocol == "HTTP/1.0")
  {
    hide ForwardPrefix, Find, FindLast;
  }

  /** The backend rejects a line whose path holds a blank. */
  lemma BlankInPath(line: string, verb: string, path: string, protocol: string)
    requires line == verb + (" " + (path + (" " + protocol))) && ' ' !in verb && ' ' in path
    ensures !IsRequestLine(line)
  {
    if IsRequestLine(line) {
      var m, target, v :| Shape(line, m, target, v) && MethodNamed(m) != Invalid && VersionNamed(v).Some?;
      BlanksOfShape(line, m, target, v);
      NoBlanks(target);
      BlanksJoin(verb, " " + (path + (" " + protocol)));
      BlanksJoin(" ", path + (" " + protocol));
      BlanksJoin(path, " " + protocol);
      BlanksJoin(" ", protocol);
      NoBlanks(path);
      OneBlank();
      assert false;
    }
  }

  /** The two request-line readers agree: a line the proxy forwards is accepted by the backend
      exactly when it holds two blanks, and then with the same method, the same version, and a
      path and query that together are the path the proxy routed by. */
  lemma RequestLinesAgree(line: string, keys: set<string>)
    requires RouteOf(line + "\r", keys).Some?
    ensures var route := RouteOf(line + "\r", keys).value;
            var (ok, r) := RequestLine(FRESH, line);
            (ok <==> Blanks(line) == 2)
            && (ok ==> r.verb == MethodNamed(route.verb) && Some(r.version) == VersionNamed(route.protocol)
                       && r.path + r.query == route.path && '?' !in r.path)
  {
    hide RequestLine, RouteOf, Blanks, WithTarget;
    RouteShape(line, keys);
    RouteParts(line + "\r", keys);
    var route := RouteOf(line + "\r", keys).value;
    BlanksOfShape(line, route.verb, route.path, route.protocol);
    NoBlanks(route.path);
    RequestLineAccepts(FRESH, line);
    if ' ' in route.path {
      BlankInPath(line, route.verb, route.path, route.protocol);
    } else {
      assert Shape(line, route.verb, route.path, route.protocol);
      var named := FRESH.(verb := MethodNamed(route.verb));
      TargetIsKept(named, route.path);
      TargetOnly(named, route.path);
    }
  }

  lemma RouteParts(line: string, keys: set<string>)
    requires RouteOf(line, keys).Some?
    ensures var r := RouteOf(line, keys).value;
            MethodNamed(r.verb) != Invalid && VersionNamed(r.protocol).Some?
  {
    hide PrefixUpTo;
  }

  lemma TargetOnly(r: Request, target: string)
    ensures WithTarget(r, target) == r.(path := WithTarget(r, target).path,
                                        query := WithTarget(r, target).query,
                                        querys := WithTarget(r, target).querys)
  {
  }

  // ---- The Client header ----

  const CLIENT := "Client: "

  function FirstLine(buf: string): string {
    buf[..Find(buf, '\n', 0)]
  }

  /** The message with the sender's address as its first header, in front of everything when
      there is no line end. */
  function InsertClient(buf: string, addr: string): string {
    var i := Find(buf, '\n', 0);
    var at := if i == |buf| then 0 else i + 1;
    buf[..at] + (CLIENT + addr + "\r\n" + buf[at..])
  }

  /** The address after the first "Client: ", up to the byte before the next '\n'; the search for
      the line end skips one byte. */
  function ExtractClient(buf: string): Option<string> {
    match FindText(buf, CLIENT)
    case None => None
    case Some(i) =>
      var beg := i + |CLIENT|;
      if beg + 1 > |buf| then None else
      var end := Find(buf, '\n', beg + 1);
      if end == |buf| then None else Some(buf[beg..end - 1])
  }

  /** Where the address is inserted, for every message: behind the first line end, or in front of everything. */
  lemma InsertedAt(buf: string, addr: string)
    ensures '\n' !in buf ==> FirstLine(buf) == buf && InsertClient(buf, addr) == "Client: " + addr + "\r\n" + buf
    ensures forall line, rest | buf == line + ("\n" + rest) && '\n' !in line ::
              FirstLine(buf) == line && InsertClient(buf, addr) == line + "\n" + ("Client: " + addr + "\r\n" + rest)
  {
    hide Find;
    FindFirst(buf, '\n', 0);
    if '\n' !in buf {
      assert buf[..0] == "" && buf[0..] == buf && buf[..|buf|] == buf;
      var text := CLIENT + addr + "\r\n" + buf;
      assert "" + text == text;
    }
    forall line, rest | buf == line + ("\n" + rest) && '\n' !in line
      ensures FirstLine(buf) == line && InsertClient(buf, addr) == line + "\n" + ("Client: " + addr + "\r\n" + rest)
    {
      FindAcross("", line, "\n" + rest, '\n');
      assert "" + line + ("\n" + rest) == buf;
      assert buf[..|line|] == line && buf[..|line| + 1] == line + "\n" && buf[|line| + 1..] == rest;
    }
  }

  /** What is extracted, for every buffer: the bytes from behind the first "Client: ", of which there must be one, up to
      the one before the first line end that does not stand right there. */
  lemma ExtractIff(buf: string, client: string)
    ensures ExtractClient(buf) == Some(client) <==> exists i: nat, end: nat :: StandsAt(buf, client, i, end)
  {
    hide ExtractClient, StandsAt;
    if i: nat, end: nat :| StandsAt(buf, client, i, end) { StandingIsExtracted(buf, client, i, end); }
    if ExtractClient(buf) == Some(client) { ExtractedStands(buf, client); }
  }

  lemma StandingIsExtracted(buf: string, client: string, i: nat, end: nat)
    requires StandsAt(buf, client, i, end)
    ensures ExtractClient(buf) == Some(client)
  {
    hide Find, FindTextFrom;
    FindTextIs(buf, CLIENT, 0, i);
    LineEndIs(buf, i + 9, end);
  }

  lemma ExtractedStands(buf: string, client: string)
    requires ExtractClient(buf) == Some(client)
    ensures exists i: nat, end: nat :: StandsAt(buf, client, i, end)
  {
    hide Find, FindTextFrom;
    FindTextFromFirst(buf, CLIENT, 0);
    var i := FindText(buf, CLIENT).value;
    FindFirst(buf, '\n', i + 9);
    assert StandsAt(buf, client, i, Find(buf, '\n', i + 9));
  }

  ghost predicate StandsAt(buf: string, client: string, i: nat, end: nat) {
    IsFirstText(buf, "Client: ", i) && IsLineEnd(buf, i + 9, end) && client == buf[i + 8..end - 1]
  }

  predicate IsLineEnd(buf: string, from: nat, end: nat) {
    from <= end < |buf| && buf[end] == '\n' && forall k :: from <= k < end ==> buf[k] != '\n'
  }

  ghost predicate IsFirstText(buf: string, pat: string, i: nat) {
    TextAt(buf, pat, i) && forall k: nat :: k < i ==> !TextAt(buf, pat, k)
  }

  lemma {:induction false} LineEndIs(buf: string, from: nat, end: nat)
    requires IsLineEnd(buf, from, end)
    ensures Find(buf, '\n', from) == end
    decreases end - from
  {
    if from < end { LineEndIs(buf, from + 1, end); }
  }

  /** Later bytes never change an address that can already be extracted. */
  lemma ExtractIsStable(buf: string, more: string)
    requires ExtractClient(buf).Some?
    ensures ExtractClient(buf + more) == ExtractClient(buf)
  {
    hide Find, FindText;
    var s := buf + more;
    var i := FindText(buf, CLIENT).value;
    FindTextStable(buf, more);
    FindStable(buf, more, '\n', i + |CLIENT| + 1);
    var end := Find(buf, '\n', i + |CLIENT| + 1);
    assert s[i + |CLIENT|..end - 1] == buf[i + |CLIENT|..end - 1];
  }

  lemma FindTextStable(buf: string, more: string)
    requires FindText(buf, CLIENT).Some?
    ensures FindText(buf + more, CLIENT) == FindText(buf, CLIENT)
    ensures FindText(buf, CLIENT).value + |CLIENT| <= |buf|
  {
    var s := buf + more;
    FindTextFromFirst(buf, CLIENT, 0);
    var i := FindText(buf, CLIENT).value;
    assert s[i..i + |CLIENT|] == buf[i..i + |CLIENT|];
    forall k: nat | k < i ensures !TextAt(s, CLIENT, k) {
      assert !TextAt(buf, CLIENT, k);
      assert s[k..k + |CLIENT|] == buf[k..k + |CLIENT|];
    }
    FindTextIs(s, CLIENT, 0, i);
  }

  lemma {:induction false} FindStable(s: string, t: string, c: char, from: nat)
    requires from <= |s| && Find(s, c, from) < |s|
    ensures Find(s + t, c, from) == Find(s, c, from)
    decreases |s| - from
  {
    if s[from] != c { FindStable(s, t, c, from + 1); }
  }

  /** A header line "Client: addr" that no earlier "Client: " precedes is what is extracted. */
  lemma ExtractsFirst(pre: string, addr: string, rest: string)
    requires addr != "" && '\n' !in addr
    requires forall k: nat :: k < |pre| ==> !TextAt(pre + (CLIENT + addr + "\r\n" + rest), CLIENT, k)
    ensures ExtractClient(pre + (CLIENT + addr + "\r\n" + rest)) == Some(addr)
  {
    var s := pre + (CLIENT + addr + "\r\n" + rest);
    var beg := |pre| + |CLIENT|;
    assert s[|pre|..beg] == CLIENT;
    FindTextIs(s, CLIENT, 0, |pre|);
    var seg := addr[1..] + "\r";
    var front := pre + CLIENT + [addr[0]];
    assert s == front + seg + ("\n" + rest);
    assert '\n' !in seg;
    FindAcross(front, seg, "\n" + rest, '\n');
    assert s[beg..beg + |addr|] == addr;
  }
}
