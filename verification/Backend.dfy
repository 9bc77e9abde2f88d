/** The shop behind the proxy: which response a request gets, and that it carries the sender's address. */
module Backend {
  import opened Sequences
  import opened Options
  import opened Bytes
  import opened HttpRequests
  import opened HttpContexts
  import opened KeyOrder
  import opened HttpResponses
  import opened HeaderRoundTrips
  import opened Routing
  import Configs
  import Stock

  /** What the query for the item finds; the JSON texts are parameters of the environment. */
  datatype Found = QueryFailed | NoResult | NoRow | Row(stock: int)

  /** How the database decides a request. */
  datatype Database = SelectFailed | StoreFailed | NoSuchRow | TooFewInStock | UpdateFailed | Succeeded

  const BUY := "/10001/buy/"
  const SHOW := "/10001/show/"
  const JSON_TYPE := "application/json"
  const TEXT_TYPE := "text/plain;charset=UTF-8"
  const NETWORK_ERROR := "网络出错"
  const NOT_FOUND_ITEM := "未找到商品"
  const TOO_FEW := "商品数量不足"

  function Filled(
    close: bool, status: Status, message: string, contentType: string, client: string, body: string): Response
  {
    Response(status, message, close, map["Client" := client, "Content-Type" := contentType], body)
  }

  /** A buy request that names no item or no amount gets the untouched response. */
  predicate Echoes(r: Request) {
    r.path == BUY ==> Lookup(r.querys, "commodity_id") != "" && Lookup(r.querys, "num") != ""
  }

  function Answer(r: Request, close: bool, db: Database, body: string): Response {
    var client := Lookup(r.headers, "Client");
    if !Echoes(r) then Response(UnknownStatus, "", close, map[], "")
    else if r.path != BUY && r.path != SHOW then Filled(close, BadRequest400, "Not Found!", TEXT_TYPE, client, body)
    else if db.SelectFailed? || db.StoreFailed? || (r.path == BUY && db.UpdateFailed?)
    then Filled(close, UnknownStatus, NETWORK_ERROR, TEXT_TYPE, client, body)
    else if r.path == BUY && db.NoSuchRow? then Filled(close, BadRequest400, NOT_FOUND_ITEM, TEXT_TYPE, client, body)
    else if r.path == BUY && db.TooFewInStock? then Filled(close, BadRequest400, TOO_FEW, TEXT_TYPE, client, body)
    else Filled(close, Ok200, "OK", JSON_TYPE, client, body)
  }

  /** A purchase is decided by comparing its amount with the stock that is found, and by the update; `None`
      when stoi throws at the comparison. */
  function Decision(r: Request, found: Found, updates: bool): Option<Database> {
    match found
    case QueryFailed => Some(SelectFailed)
    case NoResult => Some(StoreFailed)
    case NoRow => Some(if r.path == BUY then NoSuchRow else Succeeded)
    case Row(stock) =>
      if r.path != BUY then Some(Succeeded) else
      match Configs.Stoi(Lookup(r.querys, "num"))
      case None => None
      case Some(n) => Some(if n > stock then TooFewInStock else if updates then Succeeded else UpdateFailed)
  }

  method SuccessHandle(resp: HttpResponse, status: Status, message: string, body: string, client: string)
    modifies resp
    ensures resp.View() == Response(status, message, old(resp.closeConnection),
                             old(resp.headers)["Content-Type" := JSON_TYPE]["Client" := client], body)
  {
    resp.status := status;
    resp.message := message;
    resp.AddHeader("Content-Type", JSON_TYPE);
    resp.AddHeader("Client", client);
    resp.body := body;
  }

  method ErrorHandle(resp: HttpResponse, status: Status, message: string, body: string, client: string)
    modifies resp
    ensures resp.View() == Response(status, message, old(resp.closeConnection),
                             old(resp.headers)["Client" := client]["Content-Type" := TEXT_TYPE], body)
  {
    resp.status := status;
    resp.message := message;
    resp.AddHeader("Client", client);
    resp.AddHeader("Content-Type", TEXT_TYPE);
    resp.body := body;
  }

  /** The comparison throws: a purchase that names item and amount, of an item that is found, whose amount
      is no number. */
  predicate Throws(r: Request, found: Found, updates: bool) {
    Echoes(r) && Decision(r, found, updates) == None
  }

  /** The answer to a request that does not throw. */
  function Answering(r: Request, close: bool, found: Found, updates: bool, body: string): Response {
    var decision := Decision(r, found, updates);
    Answer(r, close, if decision.Some? then decision.value else SelectFailed, body)
  }

  method DoBuy(req: Request, resp: HttpResponse, found: Found, updates: bool, body: string) returns (thrown: bool)
    requires req.path == BUY && resp.View() == Response(UnknownStatus, "", resp.closeConnection, map[], "")
    modifies resp
    ensures thrown <==> Throws(req, found, updates)
    ensures !thrown ==> resp.View() == Answering(req, old(resp.closeConnection), found, updates, body)
    ensures var num := Configs.Stoi(Lookup(req.querys, "num"));
            Lookup(req.querys, "commodity_id") != "" && Lookup(req.querys, "num") != "" && found.Row? && num.Some? ==>
              !thrown
              && (resp.status == Ok200 && resp.message == "OK" <==> num.value <= found.stock && updates)
              && (resp.status == BadRequest400 && resp.message == "商品数量不足" <==> num.value > found.stock)
              && (resp.status == UnknownStatus && resp.message == "网络出错"
                  <==> num.value <= found.stock && !updates)
  {
    hide Configs.Stoi;
    thrown := false;
    var id := Lookup(req.querys, "commodity_id");
    if id == "" { return; }
    var num := Lookup(req.querys, "num");
    if num == "" { return; }
    var client := Lookup(req.headers, "Client");
    match found {
      case QueryFailed => ErrorHandle(resp, UnknownStatus, NETWORK_ERROR, body, client);
      case NoResult => ErrorHandle(resp, UnknownStatus, NETWORK_ERROR, body, client);
      case NoRow => ErrorHandle(resp, BadRequest400, NOT_FOUND_ITEM, body, client);
      case Row(stock) =>
        var amount := Configs.Stoi(num);
        if amount == None { return true; }
        if amount.value > stock {
          ErrorHandle(resp, BadRequest400, TOO_FEW, body, client);
        } else if !updates {
          ErrorHandle(resp, UnknownStatus, NETWORK_ERROR, body, client);
        } else {
          SuccessHandle(resp, Ok200, "OK", body, client);
        }
    }
  }

  method DoShow(req: Request, resp: HttpResponse, found: Found, body: string)
    requires req.path == SHOW && resp.View() == Response(UnknownStatus, "", resp.closeConnection, map[], "")
    modifies resp
    ensures forall updates :: !Throws(req, found, updates)
                              && resp.View() == Answering(req, old(resp.closeConnection), found, updates, body)
  {
    var client := Lookup(req.headers, "Client");
    if found.QueryFailed? || found.NoResult? {
      ErrorHandle(resp, UnknownStatus, NETWORK_ERROR, body, client);
    } else {
      SuccessHandle(resp, Ok200, "OK", body, client);
    }
  }

  method OnRequest(req: Request, resp: HttpResponse, found: Found, updates: bool, body: string)
    returns (thrown: bool)
    requires resp.View() == Response(UnknownStatus, "", resp.closeConnection, map[], "")
    modifies resp
    ensures thrown <==> Throws(req, found, updates)
    ensures !thrown ==> resp.View() == Answering(req, old(resp.closeConnection), found, updates, body)
  {
    hide Configs.Stoi;
    thrown := false;
    if req.path == BUY {
      thrown := DoBuy(req, resp, found, updates, body);
    } else if req.path == SHOW {
      DoShow(req, resp, found, body);
    } else {
      ErrorHandle(resp, BadRequest400, "Not Found!", body, Lookup(req.headers, "Client"));
    }
  }

  // ---- What each request is answered ----

  predicate Says(r: Response, status: Status, message: string, contentType: string, client: string, body: string) {
    r.status == status && r.message == message && r.body == body
    && r.headers == map["Client" := client, "Content-Type" := contentType]
  }

  /** The answers to a purchase, on every way out. */
  lemma PurchaseIsAnswered(r: Request, close: bool, found: Found, updates: bool, body: string)
    requires r.path == "/10001/buy/" && !Throws(r, found, updates)
    ensures var a, client := Answering(r, close, found, updates, body), Lookup(r.headers, "Client");
            var num := Configs.Stoi(Lookup(r.querys, "num"));
            a.close == close
            && if Lookup(r.querys, "commodity_id") == "" || Lookup(r.querys, "num") == ""
               then a == Response(UnknownStatus, "", close, map[], "")
               else match found
                    case QueryFailed => Says(a, UnknownStatus, "网络出错", "text/plain;charset=UTF-8", client, body)
                    case NoResult => Says(a, UnknownStatus, "网络出错", "text/plain;charset=UTF-8", client, body)
                    case NoRow => Says(a, BadRequest400, "未找到商品", "text/plain;charset=UTF-8", client, body)
                    case Row(stock) =>
                      num.Some?
                      && if num.value > stock
                         then Says(a, BadRequest400, "商品数量不足", "text/plain;charset=UTF-8", client, body)
                         else if updates then Says(a, Ok200, "OK", "application/json", client, body)
                         else Says(a, UnknownStatus, "网络出错", "text/plain;charset=UTF-8", client, body)
  {
    hide Configs.Stoi;
  }

  /** And to everything else. */
  lemma OthersAreAnswered(r: Request, close: bool, found: Found, updates: bool, body: string)
    requires r.path != "/10001/buy/"
    ensures var a, client := Answering(r, close, found, updates, body), Lookup(r.headers, "Client");
            !Throws(r, found, updates) && a.close == close
            && if r.path != "/10001/show/"
               then Says(a, BadRequest400, "Not Found!", "text/plain;charset=UTF-8", client, body)
               else if found.QueryFailed? || found.NoResult?
               then Says(a, UnknownStatus, "网络出错", "text/plain;charset=UTF-8", client, body)
               else Says(a, Ok200, "OK", "application/json", client, body)
  {
    hide Configs.Stoi;
  }

  /** A purchase of a row that was found goes the way of the buyer that has selected it: the check lets it through
      exactly if it is not answered as too much, and the update sells it exactly if it is answered "OK". */
  lemma PurchaseIsChecked(r: Request, s: Stock.Shop, b: Stock.Buyer, updates: bool)
    requires r.path == BUY && Echoes(r) && Stock.Enabled(s, Stock.Check(b))
    requires Configs.Stoi(Lookup(r.querys, "num")) == Some(s.buyers[b].order.amount)
    ensures var s1 := Stock.Do(s, Stock.Check(b));
            var decision := Decision(r, Row(s.buyers[b].stock), updates);
            (s1.buyers[b].Approved? <==> decision != Some(TooFewInStock))
            && (s1.buyers[b].Approved? ==>
                  var s2 := Stock.Do(s1, Stock.Update(b, updates));
                  (s2.buyers[b] == Stock.Finished(true) <==> decision == Some(Succeeded))
                  && s2.sold == s1.sold + if decision == Some(Succeeded) then [s.buyers[b].order] else [])
            && (!s1.buyers[b].Approved? ==> s1.buyers[b] == Stock.Finished(false) && s1.rows == s.rows)
  {
    hide Configs.Stoi;
  }

  // ---- The echoed address is the first one in the printed response ----

  /** Every 'C' is followed by an 'o', so "Client: " cannot start in this text. */
  predicate StartsNoClient(s: string) {
    forall k :: 0 <= k < |s| && s[k] == 'C' ==> k + 1 < |s| && s[k + 1] == 'o'
  }

  lemma StartsNoClientJoins(a: string, b: string)
    requires StartsNoClient(a) && StartsNoClient(b)
    ensures StartsNoClient(a + b)
  {
    forall k | 0 <= k < |a + b| && (a + b)[k] == 'C'
      ensures k + 1 < |a + b| && (a + b)[k + 1] == 'o'
    {
      if k < |a| { assert a[k] == 'C'; } else { assert b[k - |a|] == 'C'; }
    }
  }

  lemma NoClientAt(pre: string, rest: string, k: nat)
    requires StartsNoClient(pre) && k < |pre|
    ensures !TextAt(pre + rest, CLIENT, k)
  {
    var s := pre + rest;
    if k + |CLIENT| <= |s| {
      assert s[k..k + |CLIENT|][0] == s[k] == pre[k] && s[k..k + |CLIENT|][1] == s[k + 1];
      assert CLIENT[0] == 'C' && CLIENT[1] == 'l';
    }
  }

  function Preamble(r: Response): string {
    StatusLine(r) + ("\r\n" + ConnectionLines(r))
  }

  predicate PlainMessage(s: string) {
    forall k :: 0 <= k < |s| ==> s[k] != 'C'
  }

  lemma PreambleStartsNoClient(r: Response)
    requires PlainMessage(r.message)
    ensures StartsNoClient(Preamble(r))
  {
    var d := Decimal(r.status.Number());
    assert StartsNoClient(Snprintf32("HTTP/1.1 " + (d + " "))) by { StatusStartsNoClient(d); }
    StartsNoClientJoins(Snprintf32("HTTP/1.1 " + (d + " ")), r.message);
    ConnectionStartsNoClient(r);
    StartsNoClientJoins("\r\n", ConnectionLines(r));
    StartsNoClientJoins(StatusLine(r), "\r\n" + ConnectionLines(r));
  }

  lemma StatusStartsNoClient(d: string)
    requires forall i :: 0 <= i < |d| ==> '0' <= d[i] <= '9'
    ensures StartsNoClient(Snprintf32("HTTP/1.1 " + (d + " ")))
  {
  }

  lemma ConnectionStartsNoClient(r: Response)
    ensures StartsNoClient(ConnectionLines(r))
  {
    hide Decimal, Snprintf32, StartsNoClient;
    FixedStartNoClient();
    if !r.close {
      var d := Decimal(|r.body|);
      LengthStartsNoClient(d);
      StartsNoClientJoins(Snprintf32("Content-Length: " + (d + "\r\n")), "Connection: Keep-Alive" + "\r\n");
    }
  }

  lemma FixedStartNoClient()
    ensures StartsNoClient("Connection: close" + "\r\n") && StartsNoClient("Connection: Keep-Alive" + "\r\n")
  {
  }

  lemma LengthStartsNoClient(d: string)
    requires d != "" && forall i :: 0 <= i < |d| ==> '0' <= d[i] <= '9'
    ensures StartsNoClient(Snprintf32("Content-Length: " + (d + "\r\n")))
  {
    var s := "Content-Length: " + (d + "\r\n");
    assert forall k | 16 <= k < 16 + |d| :: s[k] == d[k - 16];
    assert s[0] == 'C' && s[1] == 'o';
  }

  lemma ClientBeforeContent()
    ensures LexLe("Client", "Content-Type")
  {
    assert "Client"[1..] == "lient" && "Content-Type"[1..] == "ontent-Type";
    assert LexLe("lient", "ontent-Type");
  }

  lemma ClientComesFirst()
    ensures IsLeast("Client", {"Client", "Content-Type"}) && IsLeast("Content-Type", {"Content-Type"})
  {
    hide LexLe;
    ClientBeforeContent();
    LexTotal("Client", "Client");
    LexTotal("Content-Type", "Content-Type");
  }

  lemma TwoHeaders(client: string, contentType: string)
    ensures var h := map["Client" := client, "Content-Type" := contentType];
            SortedLines(h.Keys, h) == HeaderLine("Client", client) + HeaderLine("Content-Type", contentType)
  {
    hide SortedLines, HeaderLine, IsLeast;
    var h := map["Client" := client, "Content-Type" := contentType];
    ClientComesFirst();
    assert h.Keys == {"Client", "Content-Type"};
    SortedLinesFirst("Client", h.Keys, h);
    assert h.Keys - {"Client"} == {"Content-Type"};
    SortedLinesFirst("Content-Type", {"Content-Type"}, h);
    assert {"Content-Type"} - {"Content-Type"} == {};
    NoLines(h);
    Append0(HeaderLine("Content-Type", contentType));
  }

  lemma Append0(s: string)
    ensures s + "" == s
  {
  }

  /** The header line "Client: addr" stands in the text, and no earlier "Client: ". */
  ghost predicate Names(text: string, addr: string) {
    exists pre, rest :: StartsNoClient(pre) && text == pre + (CLIENT + addr + "\r\n" + rest)
  }

  /** Such a text yields the address, whatever text without a "Client: " stands before it. */
  lemma NamesIsExtracted(held: string, text: string, addr: string)
    requires StartsNoClient(held) && Names(text, addr) && addr != "" && '\n' !in addr
    ensures ExtractClient(held + text) == Some(addr)
  {
    hide ExtractClient, StartsNoClient;
    var pre, rest :| StartsNoClient(pre) && text == pre + (CLIENT + addr + "\r\n" + rest);
    var tail := CLIENT + addr + "\r\n" + rest;
    StartsNoClientJoins(held, pre);
    Assoc(held, pre, tail);
    forall k: nat | k < |held + pre| ensures !TextAt(held + pre + tail, CLIENT, k) {
      NoClientAt(held + pre, tail, k);
    }
    ExtractsFirst(held + pre, addr, rest);
  }

  lemma NamelessIsNone(s: string)
    requires StartsNoClient(s)
    ensures ExtractClient(s) == None
  {
    hide StartsNoClient;
    FindTextFromFirst(s, CLIENT, 0);
    Append0(s);
    if FindText(s, CLIENT).Some? {
      NoClientAt(s, "", FindText(s, CLIENT).value);
    }
  }

  /** A printed response of the shop names the address it was given. */
  lemma FilledNames(r: Response, client: string, contentType: string)
    requires r.headers == map["Client" := client, "Content-Type" := contentType] && PlainMessage(r.message)
    ensures Names(Printed(r), client)
  {
    hide StatusLine, ConnectionLines, SortedLines, StartsNoClient;
    TwoHeaders(client, contentType);
    var rest := HeaderLine("Content-Type", contentType) + ("\r\n" + r.body);
    var text := CLIENT + client + "\r\n" + rest;
    assert Printed(r) == Preamble(r) + text by {
      assert HeaderLine("Client", client) == CLIENT + client + "\r\n";
      Assoc(HeaderLine("Client", client), HeaderLine("Content-Type", contentType), "\r\n" + r.body);
      Assoc("\r\n", ConnectionLines(r), text);
      Assoc(StatusLine(r), "\r\n" + ConnectionLines(r), text);
    }
    PreambleStartsNoClient(r);
  }

  /** The untouched response names nobody. */
  lemma UntouchedNamesNobody(close: bool)
    ensures StartsNoClient(Printed(Response(UnknownStatus, "", close, map[], "")))
  {
    hide StatusLine, ConnectionLines, SortedLines, StartsNoClient;
    var r := Response(UnknownStatus, "", close, map[], "");
    NoLines(r.headers);
    assert r.headers.Keys == {};
    var s := Preamble(r) + "\r\n";
    assert Printed(r) == s by {
      assert "" + ("\r\n" + "") == "\r\n";
      Assoc("\r\n", ConnectionLines(r), "\r\n");
      Assoc(StatusLine(r), "\r\n" + ConnectionLines(r), "\r\n");
    }
    PreambleStartsNoClient(r);
    LineEndStartsNoClient();
    StartsNoClientJoins(Preamble(r), "\r\n");
  }

  lemma LineEndStartsNoClient()
    ensures StartsNoClient("\r\n")
  {
  }

  /** What a printed answer names: the request's Client header if a handler has filled it, else nobody. */
  lemma AnswerNames(r: Request, close: bool, db: Database, body: string)
    ensures var client, text := Lookup(r.headers, "Client"), Printed(Answer(r, close, db, body));
            if Echoes(r) then Names(text, client) else StartsNoClient(text)
  {
    hide Printed, StartsNoClient, Names;
    var client := Lookup(r.headers, "Client");
    var a := Answer(r, close, db, body);
    if Echoes(r) {
      FilledNames(a, client, a.headers["Content-Type"]);
    } else {
      UntouchedNamesNobody(close);
    }
  }

  /** Whatever the database says, the proxy extracts the Client header of the request from the
      printed response if the handler fills it, and nothing if it does not. */
  lemma AnswerNamesClient(r: Request, close: bool, db: Database, body: string)
    requires var client := Lookup(r.headers, "Client"); client != "" && '\n' !in client
    ensures ExtractClient(Printed(Answer(r, close, db, body)))
         == if Echoes(r) then Some(Lookup(r.headers, "Client")) else None
  {
    hide Printed, ExtractClient, StartsNoClient, Names, Answer, Echoes;
    AnswerNames(r, close, db, body);
    var text := Printed(Answer(r, close, db, body));
    if Echoes(r) {
      NothingStartsNoClient();
      NamesIsExtracted("", text, Lookup(r.headers, "Client"));
      assert "" + text == text;
    } else {
      NamelessIsNone(text);
    }
  }

  lemma NothingStartsNoClient()
    ensures StartsNoClient("")
  {
  }

  // ---- The forwarded request, as the backend parses it ----

  /** A field line a client may send: it has a colon, no line end, and is not a Client header. */
  ghost predicate Field(f: string) {
    NoCrlf(f) && Find(f, ':', 0) < |f| && f[..Find(f, ':', 0)] != "Client"
  }

  function Fields(fs: seq<string>): string {
    if fs == [] then "" else fs[0] + ("\r\n" + Fields(fs[1..]))
  }

  /** A message without a body. */
  function RequestText(line: string, fs: seq<string>): string {
    line + ("\r\n" + (Fields(fs) + "\r\n"))
  }

  /** An address as inet_ntoa and the port print it: not empty and without white space. */
  ghost predicate Address(a: string) {
    a != "" && forall k :: 0 <= k < |a| ==> !IsSpace(a[k])
  }

  lemma {:induction false} FieldsKeepClient(q: Request, fs: seq<string>)
    requires forall f <- fs :: Field(f)
    ensures var r := Run(Parser(ExpectHeaders, q, Fields(fs) + "\r\n"));
            r.ok && r.parser.state == GotAll && r.parser.input == ""
            && r.parser.request == q.(headers := r.parser.request.headers)
            && Lookup(r.parser.request.headers, "Client") == Lookup(q.headers, "Client")
    decreases |fs|
  {
    hide Run, OneTurn, Find, WithHeader, NoCrlf;
    if fs == [] {
      BlankLineEnds(q, "");
      assert "" + "\r\n" == "\r\n" + "";
    } else {
      var f := fs[0];
      var rest := Fields(fs[1..]) + "\r\n";
      assert Field(f);
      assert Fields(fs) + "\r\n" == f + ("\r\n" + rest) by {
        Assoc(f, "\r\n" + Fields(fs[1..]), "\r\n");
        Assoc("\r\n", Fields(fs[1..]), "\r\n");
      }
      FieldIsRead(q, f, rest);
      RunIsOneTurn(Parser(ExpectHeaders, q, f + ("\r\n" + rest)));
      FieldsKeepClient(WithHeader(q, f, Find(f, ':', 0)), fs[1..]);
    }
  }

  /** One field line is consumed, and is not the Client header. */
  lemma FieldIsRead(q: Request, f: string, rest: string)
    requires Field(f)
    ensures var q' := WithHeader(q, f, Find(f, ':', 0));
            OneTurn(Parser(ExpectHeaders, q, f + ("\r\n" + rest))) == Turn(true, true, Parser(ExpectHeaders, q', rest))
            && q' == q.(headers := q'.headers) && Lookup(q'.headers, "Client") == Lookup(q.headers, "Client")
  {
    hide Find, FindCrlfFrom, TrimLeft, TrimRight;
    CrlfEndsLineIff(f, rest);
  }

  lemma NoNewlineNoCrlf(s: string)
    requires '\n' !in s
    ensures NoCrlf(s)
  {
  }

  /** What the proxy makes of the message: the address becomes the first header. */
  lemma InsertedText(line: string, fs: seq<string>, addr: string)
    requires '\n' !in line
    ensures var m := RequestText(line, fs);
            FirstLine(m) == line + "\r"
            && InsertClient(m, addr) == line + ("\r\n" + (HeaderLine("Client", addr) + (Fields(fs) + "\r\n")))
  {
    var m := RequestText(line, fs);
    var rest := Fields(fs) + "\r\n";
    assert m == "" + (line + "\r") + ("\n" + rest);
    assert '\n' !in line + "\r";
    FindAcross("", line + "\r", "\n" + rest, '\n');
    assert m[..|line| + 1] == line + "\r";
    assert m[..|line| + 2] == line + "\r\n";
    assert m[|line| + 2..] == rest;
    assert HeaderLine("Client", addr) == CLIENT + addr + "\r\n";
    Assoc(CLIENT + addr, "\r\n", rest);
    Assoc(line, "\r\n", HeaderLine("Client", addr) + rest);
  }

  lemma AddressCarried(addr: string)
    requires Address(addr)
    ensures Carried("Client", addr) && '\n' !in addr
  {
    forall i: nat ensures !CrlfAt(addr, i) {
      if CrlfAt(addr, i) { assert IsSpace(addr[i]); }
    }
  }

  /** The backend reads a forwarded message completely, with the inserted address as its Client
      header, exactly when its request line holds two blanks; otherwise it refuses it. */
  lemma ForwardedIsRead(q: Request, line: string, fs: seq<string>, addr: string, keys: set<string>)
    requires q == Swapped(q) && '\n' !in line && Address(addr) && forall f <- fs :: Field(f)
    requires RouteOf(FirstLine(RequestText(line, fs)), keys).Some?
    ensures var r := Run(Parser(ExpectRequestLine, q, InsertClient(RequestText(line, fs), addr)));
            if Blanks(line) == 2
            then r.ok && r.parser.state == GotAll && r.parser.input == ""
                 && Lookup(r.parser.request.headers, "Client") == addr
                 && r.parser.request == RequestLine(q, line).1.(headers := r.parser.request.headers)
            else !r.ok
  {
    hide Run, RequestLine, Fields, Find, FindCrlfFrom;
    InsertedText(line, fs, addr);
    var rest := HeaderLine("Client", addr) + (Fields(fs) + "\r\n");
    NoNewlineNoCrlf(line);
    CrlfEndsLineIff(line, rest);
    var p := Parser(ExpectRequestLine, q, line + ("\r\n" + rest));
    RunIsOneTurn(p);
    SameVerdict(q, line, keys);
    if Blanks(line) == 2 {
      var q' := RequestLine(q, line).1;
      AddressCarried(addr);
      ReadLine(q', "Client", addr, Fields(fs) + "\r\n");
      FieldsKeepClient(q'.(headers := q'.headers + map["Client" := addr]), fs);
    }
  }

  /** A forwarded message without fields of its own has just the Client header. */
  lemma BareIsForwarded(q: Request, line: string, addr: string, keys: set<string>)
    requires q == Swapped(q) && '\n' !in line && Address(addr) && Blanks(line) == 2
    requires RouteOf(FirstLine(RequestText(line, [])), keys).Some?
    ensures var r := Run(Parser(ExpectRequestLine, q, InsertClient(RequestText(line, []), addr))).parser.request;
            r == RequestLine(q, line).1.(headers := map["Client" := addr])
  {
    hide Run, RequestLine, Find, FindCrlfFrom, WithTarget;
    InsertedText(line, [], addr);
    var rest := HeaderLine("Client", addr) + ("" + "\r\n");
    NoNewlineNoCrlf(line);
    CrlfEndsLineIff(line, rest);
    RunIsOneTurn(Parser(ExpectRequestLine, q, line + ("\r\n" + rest)));
    SameVerdict(q, line, keys);
    var q' := RequestLine(q, line).1;
    AddressCarried(addr);
    ReadLine(q', "Client", addr, "" + "\r\n");
    BlankLineEnds(q'.(headers := q'.headers + map["Client" := addr]), "");
    assert "" + "\r\n" == "\r\n" + "";
    RequestLineKeepsHeaders(q, line);
    assert map[] + map["Client" := addr] == map["Client" := addr];
  }

  lemma RequestLineKeepsHeaders(q: Request, line: string)
    ensures RequestLine(q, line).1.headers == q.headers
  {
    hide Find;
  }

  /** The verdict on a request line does not depend on what the connection has collected. */
  lemma SameVerdict(q: Request, line: string, keys: set<string>)
    requires RouteOf(line + "\r", keys).Some?
    ensures RequestLine(q, line).0 <==> Blanks(line) == 2
  {
    hide RequestLine, RouteOf;
    RequestLinesAgree(line, keys);
    RequestLineAccepts(q, line);
    RequestLineAccepts(FRESH, line);
  }
}
