/** One parsed request: its fields, the query splitter and the header line reader. */
module HttpRequests {
  import opened Sequences
  import opened Options
  import opened Bytes

  datatype Method = Invalid | Get | Post | Head | Put | Delete
  datatype Version = Unknown | Http10 | Http11

  /** The value of a request object; the receive time is not modelled. */
  datatype Request = Request(
    verb: Method,
    version: Version,
    path: string,
    query: string,
    headers: map<string, string>,
    querys: map<string, string>)

  const FRESH := Request(Invalid, Unknown, "", "", map[], map[])

  function MethodNamed(m: string): Method {
    if m == "GET" then Get
    else if m == "POST" then Post
    else if m == "HEAD" then Head
    else if m == "PUT" then Put
    else if m == "DELETE" then Delete
    else Invalid
  }

  function Lookup(m: map<string, string>, key: string): string {
    if key in m then m[key] else ""
  }

  type Pair = (string, string)

  /** The pairs the splitting loop reads from the query text `q`, starting at position `beg`. */
  function ReadPairs(q: string, beg: nat): seq<Pair>
    decreases |q| - beg
  {
    if beg >= |q| then [] else
    var eq := Find(q, '=', beg);
    if eq == |q| then [] else
    var amp := Find(q, '&', eq + 1);
    [(q[beg..eq], q[eq + 1..amp])] + ReadPairs(q, amp + 1)
  }

  /** A pair the printed form can carry: no '=' in the key, no '&' in the value. */
  predicate Printable(p: Pair) {
    '=' !in p.0 && '&' !in p.1
  }

  /** The map in which the last pair of each key wins. */
  function LastWins(ps: seq<Pair>): map<string, string> {
    if ps == [] then map[] else map[ps[0].0 := ps[0].1] + LastWins(ps[1..])
  }

  /** `m` overridden by the pairs that are still to be read. */
  function Collected(q: string, beg: nat, m: map<string, string>): map<string, string> {
    m + LastWins(ReadPairs(q, beg))
  }

  function WithQuery(r: Request, q: string): Request {
    r.(query := q, querys := Collected(q, 1, r.querys))
  }

  function WithHeader(r: Request, line: string, colon: nat): Request
    requires colon < |line|
  {
    r.(headers := r.headers[line[..colon] := Trim(line[colon + 1..])])
  }

  /** A request as `reset` leaves it: everything is fresh except the query map, which `swap` skips. */
  function Swapped(r: Request): Request {
    FRESH.(querys := r.querys)
  }

  class HttpRequest {
    var verb: Method
    var version: Version
    var path: string
    var query: string
    var headers: map<string, string>
    var querys: map<string, string>

    ghost function View(): Request
      reads this
    {
      Request(verb, version, path, query, headers, querys)
    }

    constructor ()
      ensures View() == FRESH
    {
      verb, version, path, query, headers, querys := Invalid, Unknown, "", "", map[], map[];
    }

    method SetVersion(v: Version)
      modifies this`version
      ensures version == v
    {
      version := v;
    }

    // The source asserts that no method has been set yet.
    method SetMethod(name: string) returns (known: bool)
      requires verb == Invalid
      modifies this`verb
      ensures verb == MethodNamed(name)
      ensures known <==> name in {"GET", "POST", "HEAD", "PUT", "DELETE"}
      ensures (verb == Get <==> name == "GET") && (verb == Post <==> name == "POST")
      ensures (verb == Head <==> name == "HEAD") && (verb == Put <==> name == "PUT")
      ensures verb == Delete <==> name == "DELETE"
    {
      verb := MethodNamed(name);
      known := verb != Invalid;
    }

    method SetPath(p: string)
      modifies this`path
      ensures path == p
    {
      path := p;
    }

    method SetQuery(q: string)
      modifies this
      ensures View() == WithQuery(old(View()), q)
    {
      query := q;
      ParseQuery();
    }

    method ParseQuery()
      modifies this`querys
      ensures querys == Collected(query, 1, old(querys))
    {
      hide *;
      var beg := 1;
      while beg < |query|
        invariant Collected(query, beg, querys) == Collected(query, 1, old(querys))
        decreases |query| - beg
      {
        var end := Find(query, '=', beg);
        if end == |query| {
          CollectNone(query, beg, querys);
          return;
        }
        var key := query[beg..end];
        CollectFirst(query, beg, end, Find(query, '&', end + 1), querys);
        beg := end + 1;
        end := Find(query, '&', beg);
        if end == |query| {
          querys := querys[key := query[beg..end]];
          CollectNone(query, end + 1, querys);
          return;
        }
        querys := querys[key := query[beg..end]];
        beg := end + 1;
      }
      CollectNone(query, beg, querys);
    }

    method AddHeader(line: string, colon: nat)
      requires colon < |line|
      modifies this`headers
      ensures View() == WithHeader(old(View()), line, colon)
    {
      var field := line[..colon];
      var from := colon + 1;
      while from < |line| && IsSpace(line[from])
        invariant colon + 1 <= from <= |line|
        invariant forall k :: colon < k < from ==> IsSpace(line[k])
      {
        from := from + 1;
      }
      var value := line[from..];
      while value != "" && IsSpace(value[|value| - 1])
        invariant from + |value| <= |line| && value == line[from..from + |value|]
        invariant forall k :: from + |value| <= k < |line| ==> IsSpace(line[k])
        decreases |value|
      {
        assert value[..|value| - 1] == line[from..from + |value| - 1];
        value := value[..|value| - 1];
      }
      TrimBetween(line, colon + 1, from, from + |value|);
      headers := headers[field := value];
    }

    method GetHeader(field: string) returns (value: string)
      ensures value == Lookup(headers, field)
      ensures (field in headers ==> value == headers[field]) && (field !in headers ==> value == "")
    {
      value := if field in headers then headers[field] else "";
    }

    // The source compares with the end of the wrong map; the intended "" is returned for an absent key.
    method GetQuery(field: string) returns (value: string)
      ensures value == Lookup(querys, field)
      ensures (field in querys ==> value == querys[field]) && (field !in querys ==> value == "")
    {
      value := if field in querys then querys[field] else "";
    }

    /** Exchanges every field except the query map. */
    method Swap(that: HttpRequest)
      requires that != this
      modifies this, that
      ensures View() == old(that.View()).(querys := old(querys))
      ensures that.View() == old(View()).(querys := old(that.querys))
    {
      verb, that.verb := that.verb, verb;
      version, that.version := that.version, version;
      path, that.path := that.path, path;
      query, that.query := that.query, query;
      headers, that.headers := that.headers, headers;
    }
  }

  // ---- The query map ----

  lemma ReadOne(q: string, beg: nat, eq: nat, amp: nat)
    requires beg < |q| && Find(q, '=', beg) == eq < |q| && Find(q, '&', eq + 1) == amp
    ensures ReadPairs(q, beg) == [(q[beg..eq], q[eq + 1..amp])] + ReadPairs(q, amp + 1)
  {
  }

  lemma LastWinsPrepends(p: Pair, rest: seq<Pair>, m: map<string, string>)
    ensures m + LastWins([p] + rest) == m[p.0 := p.1] + LastWins(rest)
  {
    assert ([p] + rest)[1..] == rest;
    assert m + (map[p.0 := p.1] + LastWins(rest)) == m[p.0 := p.1] + LastWins(rest);
  }

  lemma CollectFirst(q: string, beg: nat, eq: nat, amp: nat, m: map<string, string>)
    requires beg < |q| && Find(q, '=', beg) == eq < |q| && Find(q, '&', eq + 1) == amp
    ensures Collected(q, beg, m) == Collected(q, amp + 1, m[q[beg..eq] := q[eq + 1..amp]])
  {
    ReadOne(q, beg, eq, amp);
    LastWinsPrepends((q[beg..eq], q[eq + 1..amp]), ReadPairs(q, amp + 1), m);
  }

  lemma CollectNone(q: string, beg: nat, m: map<string, string>)
    requires beg >= |q| || Find(q, '=', beg) == |q|
    ensures Collected(q, beg, m) == m
  {
  }

  lemma AddAssociates<K, V>(a: map<K, V>, b: map<K, V>, c: map<K, V>)
    ensures a + (b + c) == (a + b) + c
  {
  }

  /** Later pairs override, earlier ones are kept otherwise. */
  lemma {:induction false} LastWinsAppends(ps: seq<Pair>, qs: seq<Pair>)
    ensures LastWins(ps + qs) == LastWins(ps) + LastWins(qs)
  {
    if ps == [] {
      assert ps + qs == qs;
    } else {
      var first, all := map[ps[0].0 := ps[0].1], ps + qs;
      assert all[0] == ps[0] && all[1..] == ps[1..] + qs;
      LastWinsAppends(ps[1..], qs);
      AddAssociates(first, LastWins(ps[1..]), LastWins(qs));
    }
  }

  /** The map holds exactly the last value written for each key. */
  lemma {:induction false} LastWinsIsLast(ps: seq<Pair>, k: string)
    ensures k in LastWins(ps) <==> exists i :: 0 <= i < |ps| && ps[i].0 == k
    ensures forall i :: 0 <= i < |ps| && ps[i].0 == k && (forall j :: i < j < |ps| ==> ps[j].0 != k)
              ==> k in LastWins(ps) && LastWins(ps)[k] == ps[i].1
  {
    if ps != [] {
      LastWinsIsLast(ps[1..], k);
      forall i | 0 <= i < |ps| && ps[i].0 == k && (forall j :: i < j < |ps| ==> ps[j].0 != k)
        ensures k in LastWins(ps) && LastWins(ps)[k] == ps[i].1
      {
        if i > 0 {
          assert ps[1..][i - 1] == ps[i];
          assert forall j :: i - 1 < j < |ps[1..]| ==> ps[1..][j] == ps[j + 1];
        } else {
          assert forall j :: 0 <= j < |ps[1..]| ==> ps[1..][j] == ps[j + 1];
        }
      }
      if i :| 0 <= i < |ps| && ps[i].0 == k {
        if i > 0 { assert ps[1..][i - 1].0 == k; }
      }
    }
  }

  /** The pairs as they follow the question mark: k=v&k=v... */
  function PrintPairs(ps: seq<Pair>): string
    decreases |ps|, 0
  {
    if ps == [] then "" else ps[0].0 + ("=" + (ps[0].1 + PrintRest(ps[1..])))
  }

  function PrintRest(ps: seq<Pair>): string
    decreases |ps|, 1
  {
    if ps == [] then "" else "&" + PrintPairs(ps)
  }

  lemma FindsKey(q: string, pre: string, k: string, back: string)
    requires '=' !in k && back != "" && back[0] == '=' && q == pre + (k + back)
    ensures Find(q, '=', |pre|) == |pre| + |k| && q[|pre|..|pre| + |k|] == k
  {
    Assoc(pre, k, back);
    FindAcross(pre, k, back, '=');
    Middle(pre, k, back);
  }

  lemma FindsValue(q: string, pre: string, k: string, v: string, tail: string)
    requires '&' !in v && (tail == "" || tail[0] == '&') && q == pre + (k + ("=" + (v + tail)))
    ensures var at := |pre| + |k| + 1;
            Find(q, '&', at) == at + |v| && q[at..at + |v|] == v
  {
    var mid := pre + k + "=";
    Assoc(pre, k, "=" + (v + tail));
    Assoc(pre + k, "=", v + tail);
    Assoc(mid, v, tail);
    FindAcross(mid, v, tail, '&');
    Middle(mid, v, tail);
  }

  lemma ReadsFirst(q: string, pre: string, p: Pair, tail: string)
    requires Printable(p) && (tail == "" || tail[0] == '&')
    requires q == pre + (p.0 + ("=" + (p.1 + tail)))
    ensures ReadPairs(q, |pre|) == [p] + ReadPairs(q, |pre| + |p.0| + 1 + |p.1| + 1)
  {
    hide Find, ReadPairs;
    FindsKey(q, pre, p.0, "=" + (p.1 + tail));
    FindsValue(q, pre, p.0, p.1, tail);
    ReadOne(q, |pre|, |pre| + |p.0|, |pre| + |p.0| + 1 + |p.1|);
  }

  lemma {:induction false} ReadsPrinted(q: string, pre: string, ps: seq<Pair>)
    requires forall p <- ps :: Printable(p)
    requires q == pre + PrintPairs(ps)
    ensures ReadPairs(q, |pre|) == ps
    decreases |ps|
  {
    hide Find;
    if ps != [] {
      assert Printable(ps[0]);
      var k, v := ps[0].0, ps[0].1;
      ReadsFirst(q, pre, ps[0], PrintRest(ps[1..]));
      assert ps == [ps[0]] + ps[1..];
      if |ps| > 1 {
        AfterFirst(q, pre, ps);
        ReadsPrinted(q, pre + k + "=" + v + "&", ps[1..]);
      }
    }
  }

  lemma AfterFirst(q: string, pre: string, ps: seq<Pair>)
    requires |ps| > 1 && q == pre + PrintPairs(ps)
    ensures q == pre + ps[0].0 + "=" + ps[0].1 + "&" + PrintPairs(ps[1..])
  {
    hide PrintPairs;
    PrintFirst(ps);
    var k, v, more := ps[0].0, ps[0].1, PrintPairs(ps[1..]);
    var tail := "&" + more;
    Assoc(pre, k, "=" + (v + tail));
    Assoc(pre + k, "=", v + tail);
    Assoc(pre + k + "=", v, tail);
    Assoc(pre + k + "=" + v, "&", more);
  }

  lemma PrintFirst(ps: seq<Pair>)
    requires |ps| > 1
    ensures PrintPairs(ps) == ps[0].0 + ("=" + (ps[0].1 + ("&" + PrintPairs(ps[1..]))))
  {
  }

  /** What follows the last '&' without a '=' is ignored. */
  lemma {:induction false} JunkIsIgnored(q: string, pre: string, ps: seq<Pair>, junk: string)
    requires ps != [] && (forall p <- ps :: Printable(p)) && '=' !in junk
    requires q == pre + (PrintPairs(ps) + ("&" + junk))
    ensures ReadPairs(q, |pre|) == ps
    decreases |ps|
  {
    hide Find, ReadPairs, PrintPairs;
    assert Printable(ps[0]);
    var k, v := ps[0].0, ps[0].1;
    var after := pre + k + "=" + v + "&";
    assert ps == [ps[0]] + ps[1..];
    if |ps| == 1 {
      PrintOne(ps);
      JunkShape(q, pre, k, v, junk);
      ReadsFirst(q, pre, ps[0], "&" + junk);
      NothingInJunk(q, after, junk);
    } else {
      PrintFirst(ps);
      JunkShape(q, pre, k, v, PrintPairs(ps[1..]) + ("&" + junk));
      ReadsFirst(q, pre, ps[0], "&" + (PrintPairs(ps[1..]) + ("&" + junk)));
      JunkIsIgnored(q, after, ps[1..], junk);
    }
  }

  lemma PrintOne(ps: seq<Pair>)
    requires |ps| == 1
    ensures PrintPairs(ps) == ps[0].0 + ("=" + (ps[0].1 + ""))
  {
    assert ps[1..] == [];
  }

  lemma JunkShape(q: string, pre: string, k: string, v: string, more: string)
    requires q == pre + ((k + ("=" + v)) + ("&" + more)) || q == pre + ((k + ("=" + (v + ""))) + ("&" + more))
             || exists a, b :: more == a + b && q == pre + ((k + ("=" + (v + ("&" + a)))) + b)
    ensures q == pre + (k + ("=" + (v + ("&" + more)))) && q == pre + k + "=" + v + "&" + more
  {
  }

  lemma NothingInJunk(q: string, pre: string, junk: string)
    requires q == pre + junk && '=' !in junk
    ensures ReadPairs(q, |pre|) == []
  {
    if |pre| < |q| { FindFirst(q, '=', |pre|); }
  }

  /** Whatever the query text, only such pairs are read from it. */
  lemma {:induction false} ReadArePrintable(q: string, beg: nat)
    ensures forall p <- ReadPairs(q, beg) :: Printable(p)
    decreases |q| - beg
  {
    if beg < |q| {
      var eq := Find(q, '=', beg);
      if eq < |q| {
        var amp := Find(q, '&', eq + 1);
        FindFirst(q, '=', beg);
        FindFirst(q, '&', eq + 1);
        assert Printable((q[beg..eq], q[eq + 1..amp]));
        if amp < |q| { ReadArePrintable(q, amp + 1); }
      }
    }
  }

  /** Query round trip: splitting the printed "?k=v&..." gives back exactly the printed pairs if
      and only if every key is free of '=' and every value free of '&'. */
  lemma QueryRoundTripIff(ps: seq<Pair>)
    ensures ReadPairs("?" + PrintPairs(ps), 1) == ps <==> forall p <- ps :: Printable(p)
  {
    if forall p <- ps :: Printable(p) {
      ReadsPrinted("?" + PrintPairs(ps), "?", ps);
    } else {
      ReadArePrintable("?" + PrintPairs(ps), 1);
    }
  }
}
