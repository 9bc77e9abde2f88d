/** Byte-wise string order, in which std::map walks its keys. */
module KeyOrder {
  predicate LexLe(a: string, b: string) {
    a == "" || (b != "" && (a[0] < b[0] || (a[0] == b[0] && LexLe(a[1..], b[1..]))))
  }

  lemma {:induction false} LexTotal(a: string, b: string)
    ensures LexLe(a, b) || LexLe(b, a)
    decreases |a|
  {
    if a != "" && b != "" && a[0] == b[0] { LexTotal(a[1..], b[1..]); }
  }

  lemma {:induction false} LexAntisymmetric(a: string, b: string)
    requires LexLe(a, b) && LexLe(b, a)
    ensures a == b
    decreases |a|
  {
    if a != "" {
      LexAntisymmetric(a[1..], b[1..]);
      assert a == [a[0]] + a[1..] && b == [b[0]] + b[1..];
    }
  }

  lemma {:induction false} LexTransitive(a: string, b: string, c: string)
    requires LexLe(a, b) && LexLe(b, c)
    ensures LexLe(a, c)
    decreases |a|
  {
    if a != "" && a[0] == b[0] == c[0] { LexTransitive(a[1..], b[1..], c[1..]); }
  }

  /** The first byte that differs decides, and a beginning comes before its continuations. */
  lemma {:induction false} FirstDifferenceDecides(pre: string, x: char, a: string, y: char, b: string)
    requires x < y
    ensures LexLe(pre + ([x] + a), pre + ([y] + b)) && !LexLe(pre + ([y] + b), pre + ([x] + a))
    ensures LexLe(pre, pre + ([x] + a)) && !LexLe(pre + ([x] + a), pre)
    decreases |pre|
  {
    var s, t := pre + ([x] + a), pre + ([y] + b);
    if pre != "" {
      assert s[0] == t[0] == pre[0] && s[1..] == pre[1..] + ([x] + a) && t[1..] == pre[1..] + ([y] + b);
      FirstDifferenceDecides(pre[1..], x, a, y, b);
    } else {
      assert s[0] == x && t[0] == y;
    }
  }

  predicate IsLeast(k: string, ks: set<string>) {
    k in ks && forall j | j in ks :: LexLe(k, j)
  }

  lemma {:induction false} LeastExists(ks: set<string>)
    requires ks != {}
    ensures exists k :: IsLeast(k, ks)
    decreases |ks|
  {
    var a :| a in ks;
    if ks == {a} {
      LexTotal(a, a);
      assert IsLeast(a, ks);
    } else {
      LeastExists(ks - {a});
      var m :| IsLeast(m, ks - {a});
      LexTotal(a, m);
      LexTotal(a, a);
      if LexLe(a, m) {
        forall j | j in ks ensures LexLe(a, j) {
          if j != a { LexTransitive(a, m, j); }
        }
        assert IsLeast(a, ks);
      } else {
        assert IsLeast(m, ks);
      }
    }
  }

  lemma LeastIsUnique(k: string, j: string, ks: set<string>)
    requires IsLeast(k, ks) && IsLeast(j, ks)
    ensures k == j
  {
    LexAntisymmetric(k, j);
  }

  ghost function Least(ks: set<string>): (k: string)
    requires ks != {}
    ensures IsLeast(k, ks)
  {
    LeastExists(ks);
    var k :| IsLeast(k, ks);
    k
  }

  /** The keys in the order of the map. */
  ghost function Sorted(ks: set<string>): seq<string>
    decreases |ks|
  {
    if ks == {} then [] else [Least(ks)] + Sorted(ks - {Least(ks)})
  }
}

/** The response object and its printer. */
module HttpResponses {
  import opened Sequences
  import opened Options
  import opened Bytes
  import opened HttpRequests
  import opened Buffers
  import opened HttpContexts
  import opened KeyOrder

  datatype Status = UnknownStatus | Ok200 | MovedPermanently301 | BadRequest400 | NotFound404 {
    function Number(): nat {
      match this
      case UnknownStatus => 0
      case Ok200 => 200
      case MovedPermanently301 => 301
      case BadRequest400 => 400
      case NotFound404 => 404
    }
  }

  datatype Response = Response(
    status: Status,
    message: string,
    close: bool,
    headers: map<string, string>,
    body: string)

  /** snprintf into a 32 byte array: at most 31 bytes get through. */
  function Snprintf32(s: string): string {
    if |s| <= 31 then s else s[..31]
  }

  function StatusLine(r: Response): string {
    Snprintf32("HTTP/1.1 " + (Decimal(r.status.Number()) + " ")) + r.message
  }

  function ConnectionLines(r: Response): string {
    if r.close then "Connection: close" + "\r\n"
    else Snprintf32("Content-Length: " + (Decimal(|r.body|) + "\r\n")) + ("Connection: Keep-Alive" + "\r\n")
  }

  function HeaderLine(k: string, v: string): string {
    k + (": " + v) + "\r\n"
  }

  /** The keys are each in it once, in order. */
  lemma {:induction false} SortedIsSorted(ks: set<string>)
    ensures (forall k :: k in Sorted(ks) <==> k in ks) && |Sorted(ks)| == |ks|
    ensures forall i, j :: 0 <= i < j < |Sorted(ks)| ==>
              LexLe(Sorted(ks)[i], Sorted(ks)[j]) && Sorted(ks)[i] != Sorted(ks)[j]
    decreases |ks|
  {
    if ks != {} {
      var k, rest := Least(ks), ks - {Least(ks)};
      SortedIsSorted(rest);
      var all := Sorted(ks);
      assert all == [k] + Sorted(rest);
      forall i, j | 0 <= i < j < |all| ensures LexLe(all[i], all[j]) && all[i] != all[j] {
        assert all[j] == Sorted(rest)[j - 1] && Sorted(rest)[j - 1] in Sorted(rest);
        if i > 0 { assert all[i] == Sorted(rest)[i - 1]; }
      }
    }
  }

  ghost function HeaderLines(ks: seq<string>, h: map<string, string>): string
    requires forall k <- ks :: k in h
  {
    if ks == [] then "" else HeaderLine(ks[0], h[ks[0]]) + HeaderLines(ks[1..], h)
  }

  lemma {:induction false} SortedKeysAre(ks: set<string>)
    ensures forall k :: k in Sorted(ks) <==> k in ks
    decreases |ks|
  {
    if ks != {} { SortedKeysAre(ks - {Least(ks)}); }
  }

  ghost function SortedLines(ks: set<string>, h: map<string, string>): string
    requires ks <= h.Keys
  {
    SortedKeysAre(ks);
    HeaderLines(Sorted(ks), h)
  }

  ghost function HeaderBlock(r: Response): string {
    ConnectionLines(r) + (SortedLines(r.headers.Keys, r.headers) + ("\r\n" + r.body))
  }

  /** Everything the printer appends. */
  ghost function Printed(r: Response): string {
    StatusLine(r) + ("\r\n" + HeaderBlock(r))
  }

  /** The status lines, as they are printed. */
  lemma StatusLinesAre(r: Response)
    ensures r.status == UnknownStatus ==> StatusLine(r) == "HTTP/1.1 0 " + r.message
    ensures r.status == Ok200 ==> StatusLine(r) == "HTTP/1.1 200 " + r.message
    ensures r.status == MovedPermanently301 ==> StatusLine(r) == "HTTP/1.1 301 " + r.message
    ensures r.status == BadRequest400 ==> StatusLine(r) == "HTTP/1.1 400 " + r.message
    ensures r.status == NotFound404 ==> StatusLine(r) == "HTTP/1.1 404 " + r.message
  {
    hide Decimal;
    if r.status == UnknownStatus { OneDigit(0); } else { ThreeDigits(r.status.Number()); }
  }

  lemma OneDigit(n: nat)
    requires n < 10
    ensures Decimal(n) == [Digit(n)]
  {
  }

  lemma ThreeDigits(n: nat)
    requires 100 <= n < 1000
    ensures Decimal(n) == [Digit(n / 100), Digit(n / 10 % 10), Digit(n % 10)]
  {
    assert Decimal(n) == Decimal(n / 10) + [Digit(n % 10)];
    assert Decimal(n / 10) == Decimal(n / 100) + [Digit(n / 10 % 10)];
    OneDigit(n / 100);
  }

  lemma SortedLinesFirst(k: string, ks: set<string>, h: map<string, string>)
    requires IsLeast(k, ks) && ks <= h.Keys
    ensures SortedLines(ks, h) == HeaderLine(k, h[k]) + SortedLines(ks - {k}, h)
  {
    LeastIsUnique(k, Least(ks), ks);
    SortedKeysAre(ks);
    SortedKeysAre(ks - {k});
    assert Sorted(ks)[1..] == Sorted(ks - {k});
  }

  class HttpResponse {
    var status: Status
    var message: string
    var closeConnection: bool
    var headers: map<string, string>
    var body: string

    ghost function View(): Response
      reads this
    {
      Response(status, message, closeConnection, headers, body)
    }

    constructor (close: bool)
      ensures View() == Response(UnknownStatus, "", close, map[], "")
    {
      status, message, closeConnection, headers, body := UnknownStatus, "", close, map[], "";
    }

    /** Takes over every field of `r`. */
    method Fill(r: Response)
      modifies this
      ensures View() == r
    {
      status, message, closeConnection, headers, body := r.status, r.message, r.close, r.headers, r.body;
    }

    method AddHeader(key: string, value: string)
      modifies this`headers
      ensures headers == old(headers)[key := value]
    {
      headers := headers[key := value];
    }

    method AppendToBuffer(output: Buffer)
      modifies output
      ensures output.bytes == old(output.bytes) + Printed(View())
    {
      hide HeaderLines, Sorted, SortedLines, HeaderLine, Snprintf32, Decimal;
      ghost var before := output.bytes;
      output.Append(Snprintf32("HTTP/1.1 " + (Decimal(status.Number()) + " ")));
      output.Append(message);
      output.Append("\r\n");
      assert output.bytes == before + (StatusLine(View()) + "\r\n");
      ghost var prefix := output.bytes;
      if closeConnection {
        output.Append("Connection: close" + "\r\n");
      } else {
        output.Append(Snprintf32("Content-Length: " + (Decimal(|body|) + "\r\n")));
        output.Append("Connection: Keep-Alive" + "\r\n");
      }
      assert output.bytes == prefix + ConnectionLines(View());
      AppendHeaders(output);
      ghost var lines := SortedLines(headers.Keys, headers);
      output.Append("\r\n");
      output.Append(body);
      assert output.bytes == before + Printed(View()) by {
        Assoc(prefix + ConnectionLines(View()) + lines, "\r\n", body);
        Assoc(prefix + ConnectionLines(View()), lines, "\r\n" + body);
        Assoc(prefix, ConnectionLines(View()), lines + ("\r\n" + body));
        Assoc(before, StatusLine(View()) + "\r\n", HeaderBlock(View()));
        Assoc(StatusLine(View()), "\r\n", HeaderBlock(View()));
      }
    }

    /** The loop over the header map, in the order of its keys. */
    method AppendHeaders(output: Buffer)
      modifies output
      ensures output.bytes == old(output.bytes) + SortedLines(headers.Keys, headers)
    {
      hide HeaderLines, Sorted, SortedLines, HeaderLine;
      var rest := headers.Keys;
      Assoc(output.bytes, "", "");
      while rest != {}
        invariant rest <= headers.Keys
        invariant output.bytes + SortedLines(rest, headers)
               == old(output.bytes) + SortedLines(headers.Keys, headers)
        decreases |rest|
      {
        LeastExists(rest);
        var k :| k in rest && forall j | j in rest :: LexLe(k, j);
        assert IsLeast(k, rest);
        SortedLinesFirst(k, rest, headers);
        Assoc(output.bytes, HeaderLine(k, headers[k]), SortedLines(rest - {k}, headers));
        LineInPieces(output.bytes, k, headers[k]);
        output.Append(k);
        output.Append(": ");
        output.Append(headers[k]);
        output.Append("\r\n");
        rest := rest - {k};
      }
      NoLines(headers);
    }
  }

  lemma NoLines(h: map<string, string>)
    ensures SortedLines({}, h) == ""
  {
  }

  lemma LineInPieces(pre: string, k: string, v: string)
    ensures pre + HeaderLine(k, v) == pre + k + ": " + v + "\r\n"
  {
    Assoc(pre, k + (": " + v), "\r\n");
    Assoc(pre, k, ": " + v);
    Assoc(pre + k, ": ", v);
  }
}
