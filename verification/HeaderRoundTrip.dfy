/** What the parser's header loop reads from a printed header block. */
module HeaderRoundTrips {
  import opened Sequences
  import opened Options
  import opened Bytes
  import opened HttpRequests
  import opened HttpContexts
  import opened KeyOrder
  import opened HttpResponses

  /** A header the printed form can carry. */
  ghost predicate Carried(k: string, v: string) {
    ':' !in k && NoCrlf(k) && NoCrlf(v) && Trimmed(v)
  }

  lemma NoCrlfJoined(k: string, v: string)
    ensures NoCrlf(k + (": " + v)) <==> NoCrlf(k) && NoCrlf(v)
  {
    var s := k + (": " + v);
    assert forall i: nat | i < |k| :: CrlfAt(k, i) ==> CrlfAt(s, i);
    assert forall i: nat | i < |v| :: CrlfAt(v, i) ==> CrlfAt(s, |k| + 2 + i);
    if NoCrlf(k) && NoCrlf(v) {
      forall i: nat ensures !CrlfAt(s, i) {
        assert !CrlfAt(k, i);
        if i >= |k| + 2 { assert !CrlfAt(v, i - |k| - 2); }
      }
    }
  }

  lemma SplitsAtColon(k: string, v: string)
    ensures var line := k + (": " + v);
            Find(line, ':', 0) < |line|
            && (':' !in k ==> Find(line, ':', 0) == |k| && Trim(line[|k| + 1..]) == Trim(" " + v))
            && (':' in k ==> Find(line, ':', 0) < |k|)
  {
    var line := k + (": " + v);
    FindFirst(line, ':', 0);
    assert line[|k|] == ':';
    if ':' !in k {
      FindAcross("", k, ": " + v, ':');
      assert "" + k + (": " + v) == line;
      assert line[|k| + 1..] == " " + v;
    } else {
      var i :| 0 <= i < |k| && k[i] == ':';
      assert line[i] == ':';
    }
  }

  lemma TrimAfterBlank(v: string)
    requires Trimmed(v)
    ensures Trim(" " + v) == v
  {
    TrimPadded(" ", v, "");
    assert " " + v + "" == " " + v;
  }

  /** Header round trip, one line: the loop reads a printed header back, and consumes just that
      line, exactly when the key is free of ':' and CR LF and the value is trimmed and free of CR LF. */
  lemma HeaderLineRoundTripIff(k: string, v: string, rest: string)
    ensures OneTurn(Parser(ExpectHeaders, FRESH, HeaderLine(k, v) + rest))
         == Turn(true, true, Parser(ExpectHeaders, FRESH.(headers := map[k := v]), rest))
       <==> Carried(k, v)
  {
    var line := k + (": " + v);
    assert HeaderLine(k, v) + rest == line + ("\r\n" + rest) by { Assoc(line, "\r\n", rest); }
    CrlfEndsLineIff(line, rest);
    NoCrlfJoined(k, v);
    SplitsAtColon(k, v);
    if Carried(k, v) {
      TrimAfterBlank(v);
      assert line[..|k|] == k;
    } else if NoCrlf(line) {
      if ':' in k {
        var m := map[line[..Find(line, ':', 0)] := Trim(line[Find(line, ':', 0) + 1..])];
        assert k !in m;
      } else {
        TrimTrims(" " + v);
        assert line[..|k|] == k;
        assert map[k := Trim(" " + v)][k] != v;
      }
    } else {
      var at := FindCrlf(line + ("\r\n" + rest));
      FindCrlfFromFirst(line + ("\r\n" + rest), 0);
    }
  }

  lemma HeaderLineIsRead(q: Request, k: string, v: string, rest: string)
    requires Carried(k, v)
    ensures OneTurn(Parser(ExpectHeaders, q, HeaderLine(k, v) + rest))
         == Turn(true, true, Parser(ExpectHeaders, q.(headers := q.headers[k := v]), rest))
  {
    var line := k + (": " + v);
    Assoc(line, "\r\n", rest);
    CrlfEndsLineIff(line, rest);
    NoCrlfJoined(k, v);
    SplitsAtColon(k, v);
    TrimAfterBlank(v);
    assert line[..|k|] == k;
  }

  ghost predicate AllCarried(h: map<string, string>) {
    forall k | k in h :: Carried(k, h[k])
  }

  lemma {:induction false} HeaderLinesAreRead(q: Request, ks: seq<string>, h: map<string, string>, rest: string)
    requires AllCarried(h) && forall k <- ks :: k in h
    ensures Run(Parser(ExpectHeaders, q, HeaderLines(ks, h) + rest))
         == Run(Parser(ExpectHeaders, q.(headers := q.headers + map k | k in ks :: h[k]), rest))
    decreases |ks|
  {
    hide Run, OneTurn;
    if ks == [] {
      assert "" + rest == rest;
      assert q.headers + map[] == q.headers;
    } else {
      var k := ks[0];
      var tail := HeaderLines(ks[1..], h) + rest;
      var q' := q.(headers := q.headers[k := h[k]]);
      Assoc(HeaderLine(k, h[k]), HeaderLines(ks[1..], h), rest);
      HeaderLineIsRead(q, k, h[k], tail);
      RunIsOneTurn(Parser(ExpectHeaders, q, HeaderLine(k, h[k]) + tail));
      HeaderLinesAreRead(q', ks[1..], h, rest);
      assert q'.headers + (map j | j in ks[1..] :: h[j]) == q.headers + map j | j in ks :: h[j];
    }
  }

  lemma BlankLineEnds(q: Request, body: string)
    ensures Run(Parser(ExpectHeaders, q, "\r\n" + body)) == Outcome(true, Parser(GotAll, q, body))
  {
    CrlfEndsLineIff("", body);
    assert "" + ("\r\n" + body) == "\r\n" + body;
  }

  /** What the header lines after the connection lines, and the body, come back as. */
  lemma HeadersAreRead(q: Request, r: Response)
    requires AllCarried(r.headers)
    ensures Run(Parser(ExpectHeaders, q, SortedLines(r.headers.Keys, r.headers) + ("\r\n" + r.body)))
         == Outcome(true, Parser(GotAll, q.(headers := q.headers + r.headers), r.body))
  {
    hide Run, OneTurn, HeaderLines;
    var ks := Sorted(r.headers.Keys);
    SortedKeysAre(r.headers.Keys);
    HeaderLinesAreRead(q, ks, r.headers, "\r\n" + r.body);
    assert (map k | k in ks :: r.headers[k]) == r.headers;
    BlankLineEnds(q.(headers := q.headers + r.headers), r.body);
  }

  /** The connection headers, as they are meant. */
  function ConnectionHeaders(r: Response): map<string, string> {
    if r.close then map["Connection" := "close"]
    else KeptHeaders(|r.body|)
  }

  function KeptHeaders(n: nat): map<string, string> {
    map[LENGTH := Decimal(n), "Connection" := "Keep-Alive"]
  }

  const LENGTH := "Content-Length"
  const KEEP := "Connection: Keep-Alive"

  /** What is left of the Content-Length value when it is printed into 32 bytes with 14 or more
      digits: it loses its line end, so the next header runs into it. */
  function CutLength(n: nat): string
    requires |Decimal(n)| > 13
  {
    (Decimal(n) + "\r\n")[..15] + KEEP
  }

  lemma DigitsCarried(k: string, s: string)
    requires k == "Connection" || k == LENGTH
    requires s != "" && forall i :: 0 <= i < |s| ==> '0' <= s[i] <= '9'
    ensures Carried(k, s)
  {
  }

  lemma CutLengthCarried(n: nat)
    requires |Decimal(n)| > 13
    ensures Carried(LENGTH, CutLength(n)) && |CutLength(n)| == 37
  {
    var s := CutLength(n);
    assert s[0] == Decimal(n)[0];
    forall i: nat ensures !CrlfAt(s, i) {
      if i < 14 { assert s[i] == Decimal(n)[i]; }
    }
  }

  /** The connection lines of a kept-alive response, read as the parser sees them. */
  function LengthLines(n: nat): string {
    if |Decimal(n)| <= 13 then HeaderLine(LENGTH, Decimal(n)) + (KEEP + "\r\n")
    else HeaderLine(LENGTH, CutLength(n))
  }

  lemma KeptAliveLines(r: Response)
    requires !r.close
    ensures ConnectionLines(r) == LengthLines(|r.body|)
  {
    var d := Decimal(|r.body|);
    var printed := "Content-Length: " + (d + "\r\n");
    if |d| <= 13 {
      assert printed == LENGTH + (": " + d) + "\r\n";
    } else {
      var x := (d + "\r\n")[..15];
      assert printed[..31] == LENGTH + (": " + x);
      Assoc(LENGTH + (": " + x), KEEP, "\r\n");
      Assoc(LENGTH, ": " + x, KEEP);
      Assoc(": ", x, KEEP);
    }
  }

  /** The headers the connection lines really come back as. */
  function ReadConnectionHeaders(r: Response): map<string, string> {
    if r.close || |Decimal(|r.body|)| <= 13 then ConnectionHeaders(r)
    else map[LENGTH := CutLength(|r.body|)]
  }

  lemma TwoLinesAreRead(q: Request, n: nat, rest: string)
    requires |Decimal(n)| <= 13
    ensures Run(Parser(ExpectHeaders, q, LengthLines(n) + rest))
         == Run(Parser(ExpectHeaders, q.(headers := q.headers + KeptHeaders(n)), rest))
  {
    hide Run, OneTurn, Decimal, HeaderLine;
    var q' := q.(headers := q.headers + map[LENGTH := Decimal(n)]);
    DigitsCarried(LENGTH, Decimal(n));
    Assoc(HeaderLine(LENGTH, Decimal(n)), KEEP + "\r\n", rest);
    ReadLine(q, LENGTH, Decimal(n), KEEP + "\r\n" + rest);
    KeepLine();
    ReadLine(q', "Connection", "Keep-Alive", rest);
    assert q'.headers + map["Connection" := "Keep-Alive"] == q.headers + KeptHeaders(n);
  }

  lemma KeepLine()
    ensures KEEP + "\r\n" == HeaderLine("Connection", "Keep-Alive")
  {
  }

  lemma ConnectionLinesAreRead(q: Request, r: Response, rest: string)
    ensures Run(Parser(ExpectHeaders, q, ConnectionLines(r) + rest))
         == Run(Parser(ExpectHeaders, q.(headers := q.headers + ReadConnectionHeaders(r)), rest))
  {
    hide Run, OneTurn, Decimal, HeaderLine;
    if r.close {
      ReadLine(q, "Connection", "close", rest);
      CloseLine(r);
    } else {
      KeptAliveLines(r);
      if |Decimal(|r.body|)| <= 13 {
        TwoLinesAreRead(q, |r.body|, rest);
      } else {
        CutLengthCarried(|r.body|);
        ReadLine(q, LENGTH, CutLength(|r.body|), rest);
      }
    }
  }

  lemma CloseLine(r: Response)
    requires r.close
    ensures ConnectionLines(r) == HeaderLine("Connection", "close")
  {
  }

  lemma ReadLine(q: Request, k: string, v: string, rest: string)
    requires Carried(k, v)
    ensures Run(Parser(ExpectHeaders, q, HeaderLine(k, v) + rest))
         == Run(Parser(ExpectHeaders, q.(headers := q.headers + map[k := v]), rest))
  {
    hide Run, OneTurn, Carried, HeaderLine;
    HeaderLineIsRead(q, k, v, rest);
    RunIsOneTurn(Parser(ExpectHeaders, q, HeaderLine(k, v) + rest));
    assert q.headers[k := v] == q.headers + map[k := v];
  }

  /** Feeding the whole printed header block to the header loop. */
  lemma HeaderBlockIsRead(q: Request, r: Response)
    requires AllCarried(r.headers)
    ensures Run(Parser(ExpectHeaders, q, HeaderBlock(r)))
         == Outcome(true, Parser(GotAll, q.(headers := q.headers + ReadConnectionHeaders(r) + r.headers), r.body))
  {
    hide Run;
    ConnectionLinesAreRead(q, r, SortedLines(r.headers.Keys, r.headers) + ("\r\n" + r.body));
    HeadersAreRead(q.(headers := q.headers + ReadConnectionHeaders(r)), r);
  }

  /** Header round trip: the header loop rebuilds the connection headers overridden by the
      response's own, and leaves exactly the body, if and only if the length was printed whole:
      the connection is closing, the body is shorter than 10^13 bytes, or the response
      overrides both connection headers anyway. */
  lemma HeaderRoundTripIff(r: Response)
    requires AllCarried(r.headers)
    ensures Run(Parser(ExpectHeaders, FRESH, HeaderBlock(r)))
         == Outcome(true, Parser(GotAll, FRESH.(headers := ConnectionHeaders(r) + r.headers), r.body))
       <==> r.close || |r.body| < 10_000_000_000_000 || {"Connection", LENGTH} <= r.headers.Keys
  {
    hide Run, HeaderBlock, Decimal;
    HeaderBlockIsRead(FRESH, r);
    assert FRESH.headers + ReadConnectionHeaders(r) == ReadConnectionHeaders(r);
    DecimalWidth(|r.body|, 13);
    TenToThe13();
    if !r.close && |Decimal(|r.body|)| > 13 {
      var meant, read := ConnectionHeaders(r) + r.headers, ReadConnectionHeaders(r) + r.headers;
      if {"Connection", LENGTH} <= r.headers.Keys {
        assert meant == r.headers == read;
      } else if "Connection" !in r.headers {
        assert "Connection" in meant && "Connection" !in read;
      } else {
        assert read[LENGTH] == CutLength(|r.body|) && meant[LENGTH] == Decimal(|r.body|);
        var i := 15;
        assert CutLength(|r.body|)[15] == 'C';
      }
    }
  }

  lemma TenToThe13()
    ensures Pow10(13) == 10_000_000_000_000
  {
    assert Pow10(3) == 1000;
    assert Pow10(6) == 1_000_000;
    assert Pow10(9) == 1_000_000_000;
    assert Pow10(12) == 1_000_000_000_000;
  }
}
