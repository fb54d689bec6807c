/** What goes over the wire, word for word. */
module Wording {
  import opened Text
  import opened StompFrames
  import opened Decimal
  import opened Reports
  import opened ConnectionTables
  import opened ServerProtocol
  import opened ServerRuns
  import opened ServerView
  import opened OneCall
  import opened ClientSession

  // ----- Answers of the server -----

  predicate AnswersConnect(t: Tables, f: Frame, answers: seq<Frame>) {
    if "login" !in f.headers then answers == []
    else if f.headers["login"] in t.loggedIn then
      answers == [Frame("ERROR", map["message" := "User is already connected"], "")]
    else if f.headers["login"] in t.users
            && ("passcode" !in f.headers || f.headers["passcode"] != t.users[f.headers["login"]]) then
      answers == [Frame("ERROR", map["message" := "Wrong password"], ""),
                  Frame("ERROR", map["message" := "Wrong password"], "")]
    else if "passcode" !in f.headers then answers == []
    else answers == [Frame("CONNECTED", map["version" := "1.2"], "")]
  }

  /** The value of a header; the word null stands for a missing one. */
  predicate IsValue(f: Frame, key: string, v: string) {
    v == if key in f.headers then f.headers[key] else "null"
  }

  predicate AnswersUnsubscribe(view: map<string, int>, f: Frame, answers: seq<Frame>) {
    if "id" !in f.headers || ParseInt(f.headers["id"]).Err? then answers == []
    else
      && |answers| == 1 && answers[0].body == "" && "receipt-id" in answers[0].headers
      && IsValue(f, "receipt", answers[0].headers["receipt-id"])
      && if exists ch | ch in view :: SameBox(view[ch], ParseInt(f.headers["id"]).value) then
           answers[0].command == "RECEIPT" && answers[0].headers.Keys == {"receipt-id"}
         else
           && answers[0].command == "ERROR" && answers[0].headers.Keys == {"receipt-id", "message"}
           && answers[0].headers["message"] == "The user isn't subscribed with that number: " + f.headers["id"]
  }

  predicate AnswersSubscribe(view: map<string, int>, f: Frame, answers: seq<Frame>) {
    if "id" !in f.headers || ParseInt(f.headers["id"]).Err? || "destination" !in f.headers then answers == []
    else
      && |answers| == 1 && answers[0].body == "" && "receipt-id" in answers[0].headers
      && IsValue(f, "receipt", answers[0].headers["receipt-id"])
      && if f.headers["destination"] !in view then
           answers[0].command == "RECEIPT" && answers[0].headers.Keys == {"receipt-id"}
         else
           && answers[0].command == "ERROR" && answers[0].headers.Keys == {"receipt-id", "message"}
           && answers[0].headers["message"] == "The user already subscribed to channel: " + f.headers["destination"]
  }

  predicate AnswersSend(view: map<string, int>, f: Frame, answers: seq<Frame>) {
    if "destination" !in f.headers then answers == []
    else if f.headers["destination"] in view && view[f.headers["destination"]] != -1 then answers == []
    else
      && |answers| == 2 && answers[0] == answers[1] && answers[0].command == "ERROR" && answers[0].body == ""
      && answers[0].headers == map["message" := "The user isn't subscribed to channel: " + f.headers["destination"]]
  }

  predicate AnswersDisconnect(f: Frame, answers: seq<Frame>) {
    && |answers| == 1 && answers[0].command == "RECEIPT" && answers[0].body == ""
    && answers[0].headers.Keys == {"receipt-id"} && IsValue(f, "receipt", answers[0].headers["receipt-id"])
  }

  /** What a frame is answered with, by the logins and the subscriptions. */
  predicate AnswersTo(t: Tables, view: map<string, int>, f: Frame, answers: seq<Frame>) {
    if f.command == "CONNECT" then AnswersConnect(t, f, answers)
    else if f.command == "DISCONNECT" then AnswersDisconnect(f, answers)
    else if f.command == "UNSUBSCRIBE" then AnswersUnsubscribe(view, f, answers)
    else if f.command == "SUBSCRIBE" then AnswersSubscribe(view, f, answers)
    else if f.command == "SEND" then AnswersSend(view, f, answers)
    else answers == []
  }

  lemma ConnectSays(t: Tables, view: map<string, int>, f: Frame)
    ensures AnswersConnect(t, f, ConnectVerdict(t, view, f).answers)
  {
  }

  lemma UnsubscribeSays(t: Tables, me: int, f: Frame, o: Orders)
    requires OrdersFit(t, o)
    ensures AnswersUnsubscribe(View(t, me), f, UnsubscribeVerdict(View(t, me), f, o).answers)
  {
    hide View, ParseInt, ChannelWith, SameBox;
    if "id" in f.headers && ParseInt(f.headers["id"]).Ok? {
      var subId := ParseInt(f.headers["id"]).value;
      NoSuchBox(View(t, me), subId, o.channels);
      ViewIsOrdered(t, me, o);
      BoxIsFound(View(t, me), subId, o.channels);
      ReceiptSays(f);
      NotUnderSays(f);
      hide OrdersFit, HeaderNumber, AskedReceipt, NotUnder;
      assert HeaderNumber(Header(f, "id")) == ParseInt(f.headers["id"]) by {
        assert Header(f, "id") == Some(f.headers["id"]);
      }
    }
  }

  lemma ReceiptSays(f: Frame)
    ensures var r := AskedReceipt(f);
            && r.command == "RECEIPT" && r.body == "" && r.headers.Keys == {"receipt-id"}
            && IsValue(f, "receipt", r.headers["receipt-id"])
  {
  }

  lemma NotUnderSays(f: Frame)
    requires "id" in f.headers
    ensures var e := NotUnder(f);
            && e.command == "ERROR" && e.body == "" && e.headers.Keys == {"receipt-id", "message"}
            && IsValue(f, "receipt", e.headers["receipt-id"])
            && e.headers["message"] == "The user isn't subscribed with that number: " + f.headers["id"]
  {
    var a, b := "receipt-id", "message";
    assert |a| != |b|;
  }

  lemma BoxIsFound(view: map<string, int>, subId: int, order: seq<string>)
    requires forall ch | ch in view :: ch in order
    ensures ChannelWith(view, subId, order).Some? <==> exists ch | ch in view :: SameBox(view[ch], subId)
  {
    NoSuchBox(view, subId, order);
    hide SameBox, ChannelWith;
  }

  lemma ViewIsOrdered(t: Tables, me: int, o: Orders)
    requires OrdersFit(t, o)
    ensures forall ch | ch in View(t, me) :: ch in o.channels
    ensures "receipt-id" != "message"
  {
    var a, b := "receipt-id", "message";
    assert |a| != |b|;
  }

  lemma SubscribeSays(view: map<string, int>, f: Frame)
    ensures AnswersSubscribe(view, f, SubscribeVerdict(view, f).answers)
  {
    hide ParseInt;
    var a, b := "receipt-id", "message";
    assert |a| != |b|;
  }

  lemma SendSays(t: Tables, view: map<string, int>, f: Frame)
    ensures AnswersSend(view, f, SendVerdict(t, view, f).answers)
  {
  }

  lemma FrameSays(t: Tables, me: int, f: Frame, o: Orders)
    requires OrdersFit(t, o) && me in t.active
    ensures AnswersTo(t, View(t, me), f, FrameVerdict(t, me, f, o).answers)
  {
    CommandNamesDiffer();
    hide View, ConnectVerdict, UnsubscribeVerdict, SubscribeVerdict, SendVerdict, DropFails, AnswersConnect,
         AnswersUnsubscribe, AnswersSubscribe, AnswersSend, OrdersFit;
    ConnectSays(t, View(t, me), f);
    UnsubscribeSays(t, me, f, o);
    SubscribeSays(View(t, me), f);
    SendSays(t, View(t, me), f);
  }

  /** Any text on any connection, in any run: the frames it is answered with, by
      command, header table and body. */
  lemma CallSays(w: World, s: Step) returns (answers: seq<Frame>)
    requires Inv(w) && Enabled(w, s) && s.Process?
    ensures OwnAnswers(Apply(w, s).tables.sent, s.conn) == OwnAnswers(w.tables.sent, s.conn) + answers
    ensures match JavaParse(s.message)
            case Err(_) => answers == []
            case Ok(f) => if s.conn in w.tables.active then AnswersTo(w.tables, View(w.tables, s.conn), f, answers)
                          else answers == []
  {
    hide View, JavaParse, OwnAnswers, FrameVerdict, AnswersTo, OrdersFit, Processed;
    CallGives(w, s.conn, s.message, s.orders);
    OrdersFitIn(w, s);
    answers := TextVerdict(w.tables, s.conn, s.message, s.orders).answers;
    if JavaParse(s.message).Ok? {
      if s.conn in w.tables.active {
        FrameSays(w.tables, s.conn, JavaParse(s.message).value, s.orders);
      } else {
        GoneSays(w.tables, s.conn, JavaParse(s.message).value, s.orders);
      }
    }
  }

  lemma OrdersFitIn(w: World, s: Step)
    requires Enabled(w, s) && s.Process?
    ensures OrdersFit(w.tables, s.orders)
  {
  }

  lemma GoneSays(t: Tables, me: int, f: Frame, o: Orders)
    requires OrdersFit(t, o) && me !in t.active
    ensures FrameVerdict(t, me, f, o).answers == []
  {
    hide View, OrdersFit;
  }

  // ----- Printed frames -----

  lemma HeadBegins(f: Frame)
    ensures Unlines(Head(f, [])) == f.command + "\n"
  {
    UnlinesSnoc([], f.command);
    assert [] + [f.command] == Head(f, []);
  }

  lemma HeadGrows(f: Frame, order: seq<string>, k: string, head: string)
    requires forall l | l in order + [k] :: l in f.headers
    requires head == Unlines(Head(f, order))
    ensures k in f.headers
    ensures Unlines(Head(f, order + [k])) == head + k + ":" + f.headers[k] + "\n"
  {
    var longer := order + [k];
    assert longer[|order|] == k && longer[..|order|] == order;
    UnlinesSnoc(Head(f, order), HeaderLine(k, f.headers[k]));
    assert Head(f, longer) == Head(f, order) + [HeaderLine(k, f.headers[k])];
    assert head + HeaderLine(k, f.headers[k]) == head + k + ":" + f.headers[k];
  }

  lemma HeadOfOne(f: Frame, k: string)
    requires k in f.headers
    ensures Unlines(Head(f, [k])) == f.command + "\n" + k + ":" + f.headers[k] + "\n"
  {
    hide *;
    HeadBegins(f);
    assert [] + [k] == [k];
    HeadGrows(f, [], k, f.command + "\n");
  }

  lemma HeadOfTwo(f: Frame, k: string, l: string)
    requires k in f.headers && l in f.headers
    ensures Unlines(Head(f, [k, l])) == f.command + "\n" + k + ":" + f.headers[k] + "\n" + l + ":" + f.headers[l] + "\n"
  {
    hide *;
    HeadOfOne(f, k);
    assert [k] + [l] == [k, l];
    HeadGrows(f, [k], l, f.command + "\n" + k + ":" + f.headers[k] + "\n");
  }

  lemma HeadOfThree(f: Frame, k: string, l: string, m: string)
    requires k in f.headers && l in f.headers && m in f.headers
    ensures Unlines(Head(f, [k, l, m])) ==
            f.command + "\n" + k + ":" + f.headers[k] + "\n" + l + ":" + f.headers[l] + "\n"
            + m + ":" + f.headers[m] + "\n"
  {
    hide *;
    HeadOfTwo(f, k, l);
    assert [k, l] + [m] == [k, l, m];
    HeadGrows(f, [k, l], m, f.command + "\n" + k + ":" + f.headers[k] + "\n" + l + ":" + f.headers[l] + "\n");
  }

  lemma HeadOfFour(f: Frame, k: string, l: string, m: string, n: string)
    requires k in f.headers && l in f.headers && m in f.headers && n in f.headers
    ensures Unlines(Head(f, [k, l, m, n])) ==
            f.command + "\n" + k + ":" + f.headers[k] + "\n" + l + ":" + f.headers[l] + "\n"
            + m + ":" + f.headers[m] + "\n" + n + ":" + f.headers[n] + "\n"
  {
    hide *;
    HeadOfThree(f, k, l, m);
    assert [k, l, m] + [n] == [k, l, m, n];
    HeadGrows(f, [k, l, m], n, f.command + "\n" + k + ":" + f.headers[k] + "\n" + l + ":" + f.headers[l] + "\n"
                               + m + ":" + f.headers[m] + "\n");
  }

  lemma EmptyBody(head: string)
    ensures head + ("\n" + Tail("")) == head + "\n"
    ensures head + ("\n" + ("\n" + Tail(""))) == head + "\n" + "\n"
  {
  }

  lemma OnlyOrder(order: seq<string>, k: string)
    requires IsOrder(order, {k})
    ensures order == [k]
  {
    assert k in order;
    forall i | 0 <= i < |order|
      ensures order[i] == k
    {
      assert order[i] in order;
    }
    assert order[0] == order[|order| - 1];
  }

  /** A frame of the server with one header, as it is printed. */
  lemma OneHeaderText(f: Frame, k: string, order: seq<string>)
    requires f.headers.Keys == {k} && f.body == "" && IsOrder(order, f.headers.Keys)
    ensures JavaPrint(f, order) == f.command + "\n" + k + ":" + f.headers[k] + "\n" + "\n"
  {
    OnlyOrder(order, k);
    hide Head, Unlines, IsOrder, Tail;
    HeadOfOne(f, k);
    EmptyBody(Unlines(Head(f, [k])));
  }

  /** The client's requests, as they are printed. */
  lemma ConnectText(login: string, passcode: string)
    ensures WireText(Connect(login, passcode)) ==
            "CONNECT" + "\n" + "accept-version" + ":" + "1.2" + "\n" + "host" + ":" + "stomp.cs.bgu.ac.il" + "\n"
            + "login" + ":" + login + "\n" + "passcode" + ":" + passcode + "\n" + "\n" + "\n"
  {
    HeaderOrderIsOrder(Connect(login, passcode));
    hide Head, Unlines, IsOrder, Tail;
    var f := FrameOf(Connect(login, passcode));
    ConnectHeaders(login, passcode);
    HeadOfFour(f, "accept-version", "host", "login", "passcode");
    EmptyBody(Unlines(Head(f, ["accept-version", "host", "login", "passcode"])));
  }

  lemma ConnectHeaders(login: string, passcode: string)
    ensures var h := FrameOf(Connect(login, passcode)).headers;
            && "accept-version" in h && "host" in h && "login" in h && "passcode" in h
            && h["accept-version"] == "1.2" && h["host"] == "stomp.cs.bgu.ac.il"
            && h["login"] == login && h["passcode"] == passcode
  {
    Distinct4("accept-version", "host", "login", "passcode");
  }

  lemma SubscribeText(channel: string, id: int, receipt: int)
    ensures WireText(Subscribe(channel, id, receipt)) ==
            "SUBSCRIBE" + "\n" + "destination" + ":" + channel + "\n" + "id" + ":" + ToString(id) + "\n"
            + "receipt" + ":" + ToString(receipt) + "\n" + "\n" + "\n"
  {
    HeaderOrderIsOrder(Subscribe(channel, id, receipt));
    hide Head, Unlines, IsOrder, Tail, ToString;
    var f := FrameOf(Subscribe(channel, id, receipt));
    SubscribeHeaders(channel, id, receipt);
    HeadOfThree(f, "destination", "id", "receipt");
    EmptyBody(Unlines(Head(f, ["destination", "id", "receipt"])));
  }

  lemma SubscribeHeaders(channel: string, id: int, receipt: int)
    ensures var h := FrameOf(Subscribe(channel, id, receipt)).headers;
            && "destination" in h && "id" in h && "receipt" in h
            && h["destination"] == channel && h["id"] == ToString(id) && h["receipt"] == ToString(receipt)
  {
    Distinct4("", "destination", "id", "receipt");
  }

  lemma UnsubscribeText(channel: string, id: int, receipt: int)
    ensures WireText(Unsubscribe(channel, id, receipt)) ==
            "UNSUBSCRIBE" + "\n" + "id" + ":" + ToString(id) + "\n" + "receipt" + ":" + ToString(receipt) + "\n"
            + "\n" + "\n"
  {
    HeaderOrderIsOrder(Unsubscribe(channel, id, receipt));
    hide Head, Unlines, IsOrder, Tail, ToString;
    var f := FrameOf(Unsubscribe(channel, id, receipt));
    Distinct4("", "a", "id", "receipt");
    HeadOfTwo(f, "id", "receipt");
    EmptyBody(Unlines(Head(f, ["id", "receipt"])));
  }

  lemma SendText(channel: string, body: string)
    ensures WireText(Send(channel, body)) ==
            "SEND" + "\n" + "destination" + ":" + channel + "\n" + "\n" + "\n"
            + (if body == "" then "" else body + "\n")
  {
    HeaderOrderIsOrder(Send(channel, body));
    hide Head, Unlines, IsOrder;
    var f := FrameOf(Send(channel, body));
    HeadOfOne(f, "destination");
    Assoc(Unlines(Head(f, ["destination"])), "\n", "\n" + Tail(body));
    Assoc(Unlines(Head(f, ["destination"])) + "\n", "\n", Tail(body));
  }

  lemma DisconnectText(receipt: int)
    ensures WireText(Disconnect(receipt)) ==
            "DISCONNECT" + "\n" + "receipt" + ":" + ToString(receipt) + "\n" + "\n" + "\n"
  {
    HeaderOrderIsOrder(Disconnect(receipt));
    hide Head, Unlines, IsOrder, Tail, ToString;
    var f := FrameOf(Disconnect(receipt));
    HeadOfOne(f, "receipt");
    EmptyBody(Unlines(Head(f, ["receipt"])));
  }

  /** What a command puts on the wire is its requests, one text each. */
  lemma {:induction false} OneTextEach(requests: seq<Request>)
    ensures |WireTexts(requests)| == |requests|
    ensures forall i | 0 <= i < |requests| :: WireTexts(requests)[i] == WireText(requests[i])
  {
    hide WireText;
    if requests != [] {
      OneTextEach(requests[..|requests| - 1]);
    }
  }

  // ----- Reports -----

  lemma LineMore(lines: seq<string>, text: string, line: string)
    requires text == Unlines(lines)
    ensures text + (line + "\n") == Unlines(lines + [line])
  {
    UnlinesSnoc(lines, line);
    assert text + (line + "\n") == text + line + "\n";
  }

  lemma KeysOfLines(user: string, e: Event)
    requires Reportable(e)
    ensures Heading(user, e) ==
            ["user:" + user, "city:" + e.city, "event name:" + e.name, "date time:" + ToString(e.dateTime),
             "general information:", "\tactive:" + e.info["active"],
             "\tforces_arrival_at_scene:" + e.info["forces_arrival_at_scene"], "description:"]
  {
    hide ToString;
    assert "user" + [':'] == "user:" && "city" + [':'] == "city:" && "event name" + [':'] == "event name:";
    assert "date time" + [':'] == "date time:";
    assert "\t" + ("active" + [':'] + e.info["active"]) == "\tactive:" + e.info["active"];
    assert "\t" + ("forces_arrival_at_scene" + [':'] + e.info["forces_arrival_at_scene"]) ==
           "\tforces_arrival_at_scene:" + e.info["forces_arrival_at_scene"];
  }

  lemma FourLines(before: seq<string>, text: string, a: string, b: string, c: string, d: string)
    requires text == Unlines(before)
    ensures text + (a + "\n") + (b + "\n") + (c + "\n") + (d + "\n") == Unlines(before + [a, b, c, d])
  {
    hide *;
    LineMore(before, text, a);
    LineMore(before + [a], text + (a + "\n"), b);
    LineMore(before + [a] + [b], text + (a + "\n") + (b + "\n"), c);
    LineMore(before + [a] + [b] + [c], text + (a + "\n") + (b + "\n") + (c + "\n"), d);
    assert before + [a] + [b] + [c] + [d] == before + [a, b, c, d];
  }

  /** The report that goes into the body of a SEND. */
  lemma ReportText(user: string, e: Event)
    requires Reportable(e)
    ensures ReportBody(user, e) ==
            "" + ("user:" + user + "\n") + ("city:" + e.city + "\n") + ("event name:" + e.name + "\n")
            + ("date time:" + ToString(e.dateTime) + "\n")
            + ("general information:" + "\n") + ("\tactive:" + e.info["active"] + "\n")
            + ("\tforces_arrival_at_scene:" + e.info["forces_arrival_at_scene"] + "\n") + ("description:" + "\n")
            + (e.description + "\n")
  {
    KeysOfLines(user, e);
    hide Unlines, Heading, ToString;
    var a, b, c, d := "user:" + user, "city:" + e.city, "event name:" + e.name, "date time:" + ToString(e.dateTime);
    var f, g := "\tactive:" + e.info["active"], "\tforces_arrival_at_scene:" + e.info["forces_arrival_at_scene"];
    NoLines();
    FourLines([], "", a, b, c, d);
    FourLines([] + [a, b, c, d], Unlines([] + [a, b, c, d]), "general information:", f, g, "description:");
    LineMore(Heading(user, e), Unlines(Heading(user, e)), e.description);
    assert [] + [a, b, c, d] + ["general information:", f, g, "description:"] == Heading(user, e);
  }

  lemma NoLines()
    ensures Unlines([]) == ""
  {
  }
}
