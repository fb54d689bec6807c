/** The client's side of a session: what each keyboard command and each frame
    from the server does to the client's tables, and what goes on the wire. */
module ClientSession {
  import opened Text
  import opened StompFrames
  import opened Decimal
  import opened Reports

  /** The fields of the client's protocol object and of its connection handler
      that a session changes. */
  datatype Client = Client(
    receiptNumber: int,
    receipts: map<string, string>,
    subscriptionId: int,
    subscriptions: map<string, int>,
    terminateKeyboard: bool,
    terminateServerResponses: bool)

  const NEW_CLIENT := Client(0, map[], 0, map[], false, false)

  /** A frame the client sends.  The channel of an Unsubscribe is not part of
      its frame. */
  datatype Request =
    | Connect(login: string, passcode: string)
    | Subscribe(channel: string, id: int, receipt: int)
    | Unsubscribe(channel: string, id: int, receipt: int)
    | Send(channel: string, body: string)
    | Disconnect(receipt: int)

  function FrameOf(r: Request): Frame {
    match r
    case Connect(login, passcode) =>
      Frame("CONNECT", map["accept-version" := "1.2", "host" := "stomp.cs.bgu.ac.il",
                           "login" := login, "passcode" := passcode], "")
    case Subscribe(channel, id, receipt) =>
      Frame("SUBSCRIBE", map["destination" := channel, "id" := ToString(id), "receipt" := ToString(receipt)], "")
    case Unsubscribe(_, id, receipt) =>
      Frame("UNSUBSCRIBE", map["id" := ToString(id), "receipt" := ToString(receipt)], "")
    case Send(channel, body) => Frame("SEND", map["destination" := channel], body)
    case Disconnect(receipt) => Frame("DISCONNECT", map["receipt" := ToString(receipt)], "")
  }

  /** The client's header table is sorted by key. */
  function HeaderOrder(r: Request): seq<string> {
    match r
    case Connect(_, _) => ["accept-version", "host", "login", "passcode"]
    case Subscribe(_, _, _) => ["destination", "id", "receipt"]
    case Unsubscribe(_, _, _) => ["id", "receipt"]
    case Send(_, _) => ["destination"]
    case Disconnect(_) => ["receipt"]
  }

  lemma HeaderOrderIsOrder(r: Request)
    ensures IsOrder(HeaderOrder(r), FrameOf(r).headers.Keys)
  {
    var keys := FrameOf(r).headers.Keys;
    match r
    case Connect(_, _) =>
      assert keys == {"accept-version", "host", "login", "passcode"};
      Distinct4("accept-version", "host", "login", "passcode");
    case Subscribe(_, _, _) =>
      assert keys == {"destination", "id", "receipt"};
      Distinct4("", "destination", "id", "receipt");
    case Unsubscribe(_, _, _) =>
      assert keys == {"id", "receipt"};
      Distinct4("", "a", "id", "receipt");
    case Send(_, _) => assert keys == {"destination"};
    case Disconnect(_) => assert keys == {"receipt"};
  }

  lemma Distinct4(a: string, b: string, c: string, d: string)
    requires (|a| != |b| || (a != "" && a[0] != b[0])) && (|a| != |c| || (a != "" && a[0] != c[0]))
    requires (|a| != |d| || (a != "" && a[0] != d[0])) && (|b| != |c| || (b != "" && b[0] != c[0]))
    requires (|b| != |d| || (b != "" && b[0] != d[0])) && (|c| != |d| || (c != "" && c[0] != d[0]))
    ensures a != b && a != c && a != d && b != c && b != d && c != d
  {
  }

  /** The text on the wire. */
  function WireText(r: Request): string {
    HeaderOrderIsOrder(r);
    CppPrint(FrameOf(r), HeaderOrder(r))
  }

  /** The receipt a request asks for, and the command it is filed under. */
  function Receipt(r: Request): Option<int> {
    match r
    case Subscribe(_, _, receipt) => Some(receipt)
    case Unsubscribe(_, _, receipt) => Some(receipt)
    case Disconnect(receipt) => Some(receipt)
    case _ => None
  }

  // ----- What the commands do -----

  function Produced(c: Client, command: string): Client {
    var key := ToString(c.receiptNumber);
    c.(receiptNumber := c.receiptNumber + 1,
       receipts := if key in c.receipts then c.receipts else c.receipts[key := command])
  }

  /** join; `taken` says whether the socket takes the frame. */
  function AfterJoin(c: Client, channel: string, taken: bool): (Client, seq<Request>) {
    var c1 := Produced(c, "SUBSCRIBE");
    if channel in c.subscriptions || !taken then (c1, [])
    else
      (c1.(subscriptions := c.subscriptions[channel := c.subscriptionId], subscriptionId := c.subscriptionId + 1),
       [Subscribe(channel, c.subscriptionId, c.receiptNumber)])
  }

  /** exit takes a second receipt number when there is a subscription. */
  function AfterExit(c: Client, channel: string, taken: bool): (Client, seq<Request>) {
    var c1 := Produced(c, "UNSUBSCRIBE");
    if channel !in c.subscriptions then (c1, [])
    else
      var c2 := Produced(c1, "UNSUBSCRIBE");
      if taken then
        (c2.(subscriptions := c.subscriptions - {channel}),
         [Unsubscribe(channel, c.subscriptions[channel], c1.receiptNumber)])
      else (c2, [])
  }

  function ReportsOf(user: string, channel: string, events: seq<Event>, taken: seq<bool>): seq<Request>
    requires |taken| == |events|
  {
    if events == [] then []
    else
      var n := |events| - 1;
      ReportsOf(user, channel, events[..n], taken[..n]) + ReportOf(user, channel, events[n], taken[n])
  }

  /** Nothing is sent for an event that lacks a general field. */
  function ReportOf(user: string, channel: string, e: Event, taken: bool): seq<Request> {
    if Reportable(e) && taken then [Send(channel, ReportBody(user, e))] else []
  }

  function AfterReport(c: Client, user: string, channel: string, events: seq<Event>, taken: seq<bool>): seq<Request>
    requires |taken| == |events|
  {
    if channel in c.subscriptions then ReportsOf(user, channel, events, taken) else []
  }

  function AfterLogout(c: Client, taken: bool): (Client, seq<Request>) {
    (Produced(c, "DISCONNECT").(terminateKeyboard := true), if taken then [Disconnect(c.receiptNumber)] else [])
  }

  /** What ends the thread that reads from the server: a lookup in a table that
      ends up behind its last entry, or an exception nobody catches. */
  datatype SessionError = EndDereferenced | Thrown(why: ReportError)

  /** A frame other than MESSAGE. */
  function AfterFrame(c: Client, f: Frame): Result<Client, SessionError> {
    if f.command == "RECEIPT" then
      if "receipt-id" !in f.headers || f.headers["receipt-id"] !in c.receipts then Err(EndDereferenced)
      else if c.receipts[f.headers["receipt-id"]] == "DISCONNECT" then Ok(c.(terminateServerResponses := true))
      else Ok(c)
    else if f.command == "ERROR" then Ok(c.(terminateKeyboard := true, terminateServerResponses := true))
    else Ok(c)
  }

  /** A text from the server.  A MESSAGE without a destination is reported, one
      whose report cannot be read throws, and what any other says is kept
      elsewhere. */
  function AfterAnswer(c: Client, answer: string): Result<Client, SessionError> {
    match CppParse(answer)
    case Err(e) => Err(Thrown(BadFrame(e)))
    case Ok(frame) =>
      if frame.command != "MESSAGE" then AfterFrame(c, frame)
      else
        match ReadMessage(answer)
        case Ok(_) => Ok(c)
        case Err(MissingDestination) => Ok(c)
        case Err(e) => Err(Thrown(e))
  }

  // ----- The classes -----

  class ConnectionHandler {
    var receiptNumber: int
    var receipts: map<string, string>
    var currentUser: string
    var sent: seq<string>

    constructor ()
      ensures receiptNumber == 0 && receipts == map[] && currentUser == "" && sent == []
    {
      receiptNumber, receipts, currentUser, sent := 0, map[], "", [];
    }

    method ProduceReceipt(command: string) returns (receipt: int)
      modifies this`receiptNumber, this`receipts
      ensures receipt == old(receiptNumber) && receiptNumber == old(receiptNumber) + 1
      ensures receipts == if ToString(receipt) in old(receipts) then old(receipts)
                          else old(receipts)[ToString(receipt) := command]
    {
      receipt := receiptNumber;
      receiptNumber := receiptNumber + 1;
      if ToString(receipt) !in receipts {
        receipts := receipts[ToString(receipt) := command];
      }
    }

    method SendFrame(frame: string, taken: bool) returns (ok: bool)
      modifies this`sent
      ensures ok == taken && sent == old(sent) + if taken then [frame] else []
    {
      if taken {
        sent := sent + [frame];
      }
      ok := taken;
    }

    method FindReceiptCommand(receiptID: string) returns (command: Option<string>)
      ensures command == if receiptID in receipts then Some(receipts[receiptID]) else None
    {
      command := if receiptID in receipts then Some(receipts[receiptID]) else None;
    }
  }

  function WireTexts(requests: seq<Request>): seq<string> {
    if requests == [] then [] else WireTexts(requests[..|requests| - 1]) + [WireText(requests[|requests| - 1])]
  }

  lemma OneText(r: Request)
    ensures WireTexts([r]) == [WireText(r)]
  {
    assert [r][..0] == [];
  }

  lemma NextReport(user: string, channel: string, events: seq<Event>, taken: seq<bool>, i: nat)
    requires |taken| == |events| && i < |events|
    ensures WireTexts(ReportsOf(user, channel, events[..i + 1], taken[..i + 1])) ==
            WireTexts(ReportsOf(user, channel, events[..i], taken[..i]))
            + WireTexts(ReportOf(user, channel, events[i], taken[i]))
  {
    assert events[..i + 1][..i] == events[..i] && taken[..i + 1][..i] == taken[..i];
    var before, now := ReportsOf(user, channel, events[..i], taken[..i]), ReportOf(user, channel, events[i], taken[i]);
    if now == [] {
      assert before + now == before;
    } else {
      assert (before + now)[..|before|] == before;
      OneText(now[0]);
    }
  }

  class StompProtocol {
    var terminateKeyboard: bool
    var terminateServerResponses: bool
    var subscriptionId: int
    var subscriptions: map<string, int>
    const connection: ConnectionHandler

    ghost function Abs(): Client
      reads this, connection
    {
      Client(connection.receiptNumber, connection.receipts, subscriptionId, subscriptions,
             terminateKeyboard, terminateServerResponses)
    }

    constructor (conn: ConnectionHandler)
      ensures connection == conn
      ensures conn.receiptNumber == 0 && conn.receipts == map[] ==> Abs() == NEW_CLIENT
    {
      terminateKeyboard, terminateServerResponses := false, false;
      subscriptionId, subscriptions := 0, map[];
      connection := conn;
    }

    method Join(channelName: string, taken: bool)
      modifies this, connection
      ensures var (c, requests) := AfterJoin(old(Abs()), channelName, taken);
              Abs() == c && connection.sent == old(connection.sent) + WireTexts(requests)
    {
      var command := "SUBSCRIBE";
      var receipt := connection.ProduceReceipt(command);
      if channelName !in subscriptions {
        ghost var request := Subscribe(channelName, subscriptionId, receipt);
        HeaderOrderIsOrder(request);
        OneText(request);
        var headers := map["destination" := channelName, "id" := ToString(subscriptionId),
                           "receipt" := ToString(receipt)];
        var output := CppCreateFrame(Frame(command, headers, ""), ["destination", "id", "receipt"]);
        var ok := connection.SendFrame(output, taken);
        if ok {
          subscriptions := subscriptions[channelName := subscriptionId];
          subscriptionId := subscriptionId + 1;
        }
      }
    }

    method Exit(channelName: string, taken: bool)
      modifies this, connection
      ensures var (c, requests) := AfterExit(old(Abs()), channelName, taken);
              Abs() == c && connection.sent == old(connection.sent) + WireTexts(requests)
    {
      var command := "UNSUBSCRIBE";
      var receipt := connection.ProduceReceipt(command);
      if channelName in subscriptions {
        receipt := connection.ProduceReceipt(command);
        var subId := subscriptions[channelName];
        ghost var request := Unsubscribe(channelName, subId, receipt);
        HeaderOrderIsOrder(request);
        OneText(request);
        var headers := map["id" := ToString(subId), "receipt" := ToString(receipt)];
        var output := CppCreateFrame(Frame(command, headers, ""), ["id", "receipt"]);
        var ok := connection.SendFrame(output, taken);
        if ok {
          subscriptions := subscriptions - {channelName};
        }
      }
    }

    method Report(channelName: string, events: seq<Event>, taken: seq<bool>)
      requires |taken| == |events|
      modifies connection`sent
      ensures Abs() == old(Abs())
      ensures connection.sent == old(connection.sent) +
              WireTexts(AfterReport(Abs(), connection.currentUser, channelName, events, taken))
    {
      if channelName in subscriptions {
        SendReports(channelName, events, taken);
      }
    }

    /** The loop over the events of a report command. */
    method SendReports(channelName: string, events: seq<Event>, taken: seq<bool>)
      requires |taken| == |events|
      modifies connection`sent
      ensures connection.sent == old(connection.sent) +
              WireTexts(ReportsOf(connection.currentUser, channelName, events, taken))
    {
      ghost var user, before := connection.currentUser, connection.sent;
      var i := 0;
      ghost var texts: seq<string> := [];
      assert WireTexts(ReportsOf(user, channelName, events[..0], taken[..0])) == texts;
      hide *;
      while i < |events|
        invariant 0 <= i <= |events|
        invariant connection.sent == before + texts
        invariant texts == WireTexts(ReportsOf(user, channelName, events[..i], taken[..i]))
      {
        ReportOne(channelName, events[i], taken[i]);
        NextReport(user, channelName, events, taken, i);
        ghost var now := WireTexts(ReportOf(user, channelName, events[i], taken[i]));
        Assoc(before, texts, now);
        texts := texts + now;
        i := i + 1;
      }
      assert events[..i] == events && taken[..i] == taken;
    }

    method ReportOne(channelName: string, e: Event, taken: bool)
      modifies connection`sent
      ensures connection.sent ==
              old(connection.sent) + WireTexts(ReportOf(connection.currentUser, channelName, e, taken))
    {
      var body := PrintReport(connection.currentUser, e);
      if body.Some? {
        ghost var request := Send(channelName, body.value);
        HeaderOrderIsOrder(request);
        OneText(request);
        var headers := map["destination" := channelName];
        var output := CppCreateFrame(Frame("SEND", headers, body.value), ["destination"]);
        var ok := connection.SendFrame(output, taken);
      }
    }

    method Logout(taken: bool)
      modifies this, connection
      ensures var (c, requests) := AfterLogout(old(Abs()), taken);
              Abs() == c && connection.sent == old(connection.sent) + WireTexts(requests)
    {
      var command := "DISCONNECT";
      var receipt := connection.ProduceReceipt(command);
      ghost var request := Disconnect(receipt);
      HeaderOrderIsOrder(request);
      OneText(request);
      var headers := map["receipt" := ToString(receipt)];
      var output := CppCreateFrame(Frame(command, headers, ""), ["receipt"]);
      var ok := connection.SendFrame(output, taken);
      terminateKeyboard := true;
    }

    /** One round of server_response_process. */
    method OnAnswer(answer: string) returns (failed: Option<SessionError>)
      modifies this
      ensures var r := AfterAnswer(old(Abs()), answer);
              if r.Ok? then failed.None? && Abs() == r.value else failed == Some(r.error) && Abs() == old(Abs())
    {
      failed := None;
      var parsed := CppStompFrame(answer);
      if parsed.Err? {
        return Some(Thrown(BadFrame(parsed.error)));
      }
      var frame := parsed.value;
      if frame.command == "RECEIPT" {
        if "receipt-id" !in frame.headers {
          return Some(EndDereferenced);
        }
        var receiptCommand := connection.FindReceiptCommand(frame.headers["receipt-id"]);
        match receiptCommand
        case None => return Some(EndDereferenced);
        case Some(command) =>
          if command == "DISCONNECT" {
            terminateServerResponses := true;
          }
      } else if frame.command == "ERROR" {
        terminateKeyboard := true;
        terminateServerResponses := true;
      } else if frame.command == "MESSAGE" {
        var report := OnMessage(answer);
        if report.Err? && report.error != MissingDestination {
          return Some(Thrown(report.error));
        }
      }
    }
  }
}
