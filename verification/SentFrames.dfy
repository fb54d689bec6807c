/** Every frame the server sends is one that the client reads back. */
module SentFrames {
  import opened Text
  import opened Splitter
  import opened StompFrames
  import opened RoundTrips
  import opened Decimal
  import opened ConnectionTables
  import opened ServerProtocol
  import opened ServerRuns

  predicate PlainHeaders(m: map<string, string>) {
    forall k | k in m :: Free(k, '\n') && Free(k, ':') && Free(m[k], '\n')
  }

  lemma {:induction false} TextsArePlain(t: seq<Token>)
    requires forall x | x in t && x.Line? :: Free(x.text, '\n')
    ensures forall l | l in Texts(t) :: Free(l, '\n')
  {
    if t != [] {
      assert forall x | x in t[1..] :: x in t;
      TextsArePlain(t[1..]);
      assert t[0] in t;
    }
  }

  lemma {:induction false} LastWinsIsPlain(lines: seq<string>)
    requires forall l | l in lines :: Free(l, '\n')
    ensures PlainHeaders(LastWins(lines))
  {
    if lines != [] {
      var n := |lines| - 1;
      assert lines[n] in lines && forall l | l in lines[..n] :: l in lines;
      LastWinsIsPlain(lines[..n]);
    }
  }

  /** Headers that were parsed can be printed again. */
  lemma ParsedIsPlain(s: string)
    ensures JavaParse(s).Ok? ==> PlainHeaders(JavaParse(s).value.headers)
  {
    JavaParseMeans(s);
    var t := Tokens(s, '\n');
    if t != [] {
      TokenShapes(s);
      var head := t[1..BodyMark(t, 1)];
      assert forall x | x in head :: x in t;
      TextsArePlain(head);
      LastWinsIsPlain(Texts(head));
    }
  }

  // ----- No NUL comes from nowhere -----

  predicate NulFree(f: Frame) {
    && Free(f.command, NUL) && Free(f.body, NUL)
    && forall k | k in f.headers :: Free(k, NUL) && Free(f.headers[k], NUL)
  }

  predicate TokensFree(t: seq<Token>) {
    forall x | x in t && x.Line? :: Free(x.text, NUL)
  }

  lemma {:induction false} TokensAreFree(s: string)
    requires Free(s, NUL)
    ensures TokensFree(Tokens(s, '\n'))
    decreases |s|
  {
    if s != "" && IndexOf(s, '\n') < |s| {
      TokensAreFree(s[IndexOf(s, '\n') + 1..]);
    }
  }

  lemma {:induction false} SpellIsFree(t: seq<Token>)
    requires TokensFree(t)
    ensures Free(Spell(t), NUL)
  {
    if t != [] {
      assert forall x | x in t[1..] :: x in t;
      SpellIsFree(t[1..]);
      assert t[0] in t;
    }
  }

  lemma {:induction false} TextsAreFree(t: seq<Token>)
    requires TokensFree(t)
    ensures forall l | l in Texts(t) :: Free(l, NUL)
  {
    if t != [] {
      assert forall x | x in t[1..] :: x in t;
      TextsAreFree(t[1..]);
      assert t[0] in t;
    }
  }

  lemma {:induction false} LastWinsIsFree(lines: seq<string>)
    requires forall l | l in lines :: Free(l, NUL)
    ensures forall k | k in LastWins(lines) :: Free(k, NUL) && Free(LastWins(lines)[k], NUL)
  {
    if lines != [] {
      var n := |lines| - 1;
      assert lines[n] in lines && forall l | l in lines[..n] :: l in lines;
      LastWinsIsFree(lines[..n]);
    }
  }

  lemma PartIsFree(t: seq<Token>, i: nat, j: nat)
    requires TokensFree(t) && i <= j <= |t|
    ensures TokensFree(t[i..j])
  {
    assert forall x | x in t[i..j] :: x in t;
  }

  lemma HeadersAreFree(t: seq<Token>, b: nat)
    requires TokensFree(t) && 1 <= b <= |t|
    ensures var m := LastWins(Texts(t[1..b])); forall k | k in m :: Free(k, NUL) && Free(m[k], NUL)
  {
    hide TokensFree, Free, Texts, LastWins;
    PartIsFree(t, 1, b);
    TextsAreFree(t[1..b]);
    LastWinsIsFree(Texts(t[1..b]));
  }

  lemma BodyIsFree(t: seq<Token>, b: nat)
    requires TokensFree(t)
    ensures Free(BodyOf(t, b), NUL)
  {
    hide TokensFree, Spell;
    if b + 2 <= |t| {
      PartIsFree(t, b + 2, |t|);
      SpellIsFree(t[b + 2..]);
    }
  }

  lemma FirstIsFree(t: seq<Token>)
    requires TokensFree(t) && t != []
    ensures Free(SpellOne(t[0]), NUL) && Free("", NUL)
  {
    assert t[0] in t;
  }

  /** A text without NUL is parsed to a frame without NUL. */
  lemma ParsedIsNulFree(s: string)
    requires Free(s, NUL)
    ensures JavaParse(s).Ok? ==> NulFree(JavaParse(s).value)
  {
    hide JavaParse, Tokens, Texts, LastWins, TokensFree, Free, BodyMark, BodyOf, SpellOne, Colonless;
    JavaParseMeans(s);
    TokensAreFree(s);
    var t := Tokens(s, '\n');
    if t != [] {
      var b := BodyMark(t, 1);
      HeadersAreFree(t, b);
      BodyIsFree(t, b);
      FirstIsFree(t);
    }
  }

  // ----- The frames of one call -----

  /** What a request may be answered with. */
  ghost predicate Answers(request: Frame, f: Frame) {
    && Printable(f)
    && (NulFree(request) ==> NulFree(f))
    && (f.command == "ERROR"
        || f.command == "MESSAGE"
        || (request.command == "CONNECT" && f == CONNECTED)
        || (request.command in ["SUBSCRIBE", "UNSUBSCRIBE", "DISCONNECT"]
            && f == ReceiptFrame(Header(request, "receipt"))))
  }

  ghost predicate OnlySends(t: Tables, t': Tables, request: Frame) {
    && t.sent <= t'.sent
    && forall i | |t.sent| <= i < |t'.sent| :: Answers(request, t'.sent[i].frame)
  }

  lemma AnswerSends(t: Tables, p: Proto, frame: Frame, o: Orders, request: Frame)
    requires OrdersFit(t, o) && Answers(request, frame)
    ensures OnlySends(t, Answer(t, p, frame).tables, request)
    ensures OnlySends(t, Rejected(t, p, frame, o).tables, request)
    ensures OnlySends(t, Rejected(Answer(t, p, frame).tables, p, frame, o).tables, request)
  {
    RejectedSends(t, p, frame, o, request);
    if Answer(t, p, frame).thrown.None? {
      hide Answers, Rejected;
      RejectedSends(Answer(t, p, frame).tables, p, frame, o, request);
    }
  }

  lemma RejectedSends(t: Tables, p: Proto, frame: Frame, o: Orders, request: Frame)
    requires OrdersFit(t, o) && Answers(request, frame)
    ensures OrdersFit(Answer(t, p, frame).tables, o)
    ensures OnlySends(t, Answer(t, p, frame).tables, request)
    ensures OnlySends(t, Rejected(t, p, frame, o).tables, request)
  {
    hide Answers;
    var one := Answer(t, p, frame).tables;
    if Answer(t, p, frame).thrown.None? {
      DisconnectedMeans(one.(closed := one.closed + {p.connectionID}), p.connectionID, o);
    }
  }

  lemma HeaderIsPlain(request: Frame, key: string)
    requires PlainHeaders(request.headers)
    ensures Free(Printed(Header(request, key)), '\n')
    ensures NulFree(request) ==> Free(Printed(Header(request, key)), NUL)
  {
  }

  lemma DestinationIsPlain(request: Frame)
    requires PlainHeaders(request.headers) && "destination" in request.headers
    ensures Free(request.headers["destination"], '\n')
    ensures NulFree(request) ==> Free(request.headers["destination"], NUL) && Free(request.body, NUL)
  {
  }

  lemma ReceiptAnswers(request: Frame)
    requires PlainHeaders(request.headers) && request.command in ["SUBSCRIBE", "UNSUBSCRIBE", "DISCONNECT"]
    ensures Answers(request, ReceiptFrame(Header(request, "receipt")))
  {
    HeaderIsPlain(request, "receipt");
    NamesArePlain();
    hide Header, Printed, PlainHeaders, Plain, Free;
  }

  lemma NamesArePlain()
    ensures TextLine("RECEIPT") && TextLine("ERROR") && TextLine("MESSAGE")
    ensures Free("RECEIPT", NUL) && Free("ERROR", NUL) && Free("MESSAGE", NUL) && Free("", NUL)
    ensures PlainName("receipt-id") && PlainName("message")
    ensures PlainName("subscription") && PlainName("message-id") && PlainName("destination")
  {
  }

  predicate PlainName(k: string) {
    Free(k, '\n') && Free(k, ':') && Free(k, NUL)
  }

  lemma TextsOfErrorsArePlain()
    ensures Plain("The user isn't subscribed with that number: ") && Plain("The user already subscribed to channel: ")
    ensures Plain("The user isn't subscribed to channel: ")
  {
  }

  lemma TextsOfConnectAreFree()
    ensures Plain("User is already connected") && Plain("Wrong password") && Free("", '\n') && Free("", NUL)
  {
  }

  lemma PlainSum(a: string, b: string, c: char)
    ensures Free(a, c) && Free(b, c) ==> Free(a + b, c)
  {
  }

  lemma ShortErrorAnswers(request: Frame, prefix: string, text: string)
    requires Plain(prefix) && Free(text, '\n') && (NulFree(request) ==> Free(text, NUL))
    ensures Answers(request, ErrorFrame(map["message" := prefix + text]))
  {
    NamesArePlain();
    PlainSum(prefix, text, '\n');
    PlainSum(prefix, text, NUL);
    hide Free;
  }

  lemma LongErrorAnswers(request: Frame, prefix: string, text: string)
    requires PlainHeaders(request.headers) && Plain(prefix) && Free(text, '\n')
    requires NulFree(request) ==> Free(text, NUL)
    ensures Answers(request, ErrorFrame(map["receipt-id" := Printed(Header(request, "receipt")),
                                            "message" := prefix + text]))
  {
    HeaderIsPlain(request, "receipt");
    NamesArePlain();
    PlainSum(prefix, text, '\n');
    PlainSum(prefix, text, NUL);
    hide Free, Header, Printed, PlainHeaders;
  }

  lemma ConnectedAnswers(request: Frame)
    requires request.command == "CONNECT"
    ensures Answers(request, CONNECTED)
  {
  }

  lemma MessageAnswers(request: Frame, subId: int, messageId: int, channel: string, body: string)
    requires Free(channel, '\n') && (NulFree(request) ==> Free(channel, NUL) && Free(body, NUL))
    ensures Answers(request, MessageFrame(subId, messageId, channel, body))
  {
    ToStringPlain(subId);
    ToStringPlain(messageId);
    NamesArePlain();
    hide Free, ToString;
  }

  lemma ConnectedSendsNothing(t: Tables, login: string, passcode: Option<string>, id: int)
    ensures var (t', r) := Connected(t, login, passcode, id); t'.sent == t.sent && (r == Ok(false) ==> t' == t)
  {
  }

  lemma OnConnectSends(t: Tables, p: Proto, f: Frame, o: Orders)
    requires OrdersFit(t, o) && f.command == "CONNECT"
    ensures OnlySends(t, OnConnect(t, p, f, o).tables, f)
  {
    hide Answers, Rejected, OrdersFit, Free, Plain, NulFree;
    TextsOfConnectAreFree();
    var taken, wrong := "User is already connected", "Wrong password";
    ConnectedAnswers(f);
    ShortErrorAnswers(f, taken, "");
    ShortErrorAnswers(f, wrong, "");
    assert taken + "" == taken && wrong + "" == wrong;
    if Header(f, "login").Some? {
      var login := Header(f, "login").value;
      if login in t.loggedIn {
        AnswerSends(t, p, ErrorFrame(map["message" := taken]), o, f);
      } else {
        ConnectedSendsNothing(t, login, Header(f, "passcode"), p.connectionID);
        var (t', r) := Connected(t, login, Header(f, "passcode"), p.connectionID);
        hide Connected;
        if r == Ok(false) {
          AnswerSends(t, p, ErrorFrame(map["message" := wrong]), o, f);
        }
      }
    }
  }

  lemma OnDisconnectSends(t: Tables, p: Proto, f: Frame, o: Orders)
    requires OrdersFit(t, o) && f.command == "DISCONNECT" && PlainHeaders(f.headers)
    ensures OnlySends(t, OnDisconnect(t, p, f, o).tables, f)
  {
    ReceiptAnswers(f);
    hide Answers;
    AnswerSends(t, p, ReceiptFrame(Header(f, "receipt")), o, f);
    DisconnectedMeans(Answer(t, p, ReceiptFrame(Header(f, "receipt"))).tables, p.connectionID, o);
  }

  lemma OnUnsubscribeSends(t: Tables, p: Proto, f: Frame, o: Orders)
    requires OrdersFit(t, o) && f.command == "UNSUBSCRIBE" && PlainHeaders(f.headers)
    ensures OnlySends(t, OnUnsubscribe(t, p, f, o).tables, f)
  {
    hide Answers, Rejected, Free, Plain, NulFree, PlainHeaders;
    ReceiptAnswers(f);
    TextsOfErrorsArePlain();
    var prefix := "The user isn't subscribed with that number: ";
    HeaderIsPlain(f, "id");
    LongErrorAnswers(f, prefix, Printed(Header(f, "id")));
    if HeaderNumber(Header(f, "id")).Ok? {
      var subId := HeaderNumber(Header(f, "id")).value;
      var ch := UnsubscribedMeans(t, subId, Lookup(t, p.connectionID), o.channels);
      var (t', done) := Unsubscribed(t, subId, Lookup(t, p.connectionID), o.channels);
      if !done {
        AnswerSends(t, p, ErrorFrame(map[
          "receipt-id" := Printed(Header(f, "receipt")), "message" := prefix + Printed(Header(f, "id"))]), o, f);
      }
    }
  }

  lemma OnSubscribeSends(t: Tables, p: Proto, f: Frame, o: Orders)
    requires OrdersFit(t, o) && f.command == "SUBSCRIBE" && PlainHeaders(f.headers)
    ensures OnlySends(t, OnSubscribe(t, p, f, o).tables, f)
  {
    hide Answers, Rejected, Free, Plain, NulFree, PlainHeaders, OrdersFit;
    ReceiptAnswers(f);
    TextsOfErrorsArePlain();
    if Header(f, "destination").Some? && HeaderNumber(Header(f, "id")).Ok? {
      var prefix, channel := "The user already subscribed to channel: ", Header(f, "destination").value;
      DestinationIsPlain(f);
      var (t', done) := Subscribed(t, channel, HeaderNumber(Header(f, "id")).value, Lookup(t, p.connectionID));
      assert t'.sent == t.sent && (!done ==> t' == t);
      LongErrorAnswers(f, prefix, channel);
      hide Subscribed;
      if !done {
        AnswerSends(t, p, ErrorFrame(map[
          "receipt-id" := Printed(Header(f, "receipt")), "message" := prefix + channel]), o, f);
      }
    }
  }

  lemma {:induction false} DeliveriesAre(to: seq<int>, frame: Frame)
    ensures |Deliveries(to, frame)| == |to|
    ensures forall i | 0 <= i < |to| :: Deliveries(to, frame)[i] == Delivery(to[i], frame)
  {
    if to != [] {
      DeliveriesAre(to[1..], frame);
    }
  }

  lemma OnSendSends(t: Tables, p: Proto, f: Frame, o: Orders)
    requires OrdersFit(t, o) && f.command == "SEND" && PlainHeaders(f.headers)
    ensures OnlySends(t, OnSend(t, p, f, o).tables, f)
  {
    hide Answers, Rejected, Free, Plain, NulFree, PlainHeaders;
    TextsOfErrorsArePlain();
    if "destination" in f.headers {
      var prefix, channel := "The user isn't subscribed to channel: ", f.headers["destination"];
      DestinationIsPlain(f);
      var subId := UserSubId(t, channel, p.connectionID);
      var message := MessageFrame(subId, p.messageID, channel, f.body);
      ShortErrorAnswers(f, prefix, channel);
      MessageAnswers(f, subId, p.messageID, channel, f.body);
      hide Answer, UserSubId;
      if subId == -1 {
        AnswerSends(t, p, ErrorFrame(map["message" := prefix + channel]), o, f);
      } else {
        BroadcastReaches(t, o.subscribers[channel], message);
        DeliveriesAre(Reached(o.subscribers[channel]), message);
      }
    }
  }

  lemma ProcessSends(t: Tables, p: Proto, message: string, o: Orders)
    requires OrdersFit(t, o)
    ensures var t' := Processed(t, p, message, o).tables;
            if JavaParse(message).Ok? then OnlySends(t, t', JavaParse(message).value) else t' == t
  {
    ParsedIsPlain(message);
    if JavaParse(message).Ok? {
      var f := JavaParse(message).value;
      var p' := p.(shouldTerminate := f.command == "DISCONNECT");
      hide OnConnect, OnDisconnect, OnUnsubscribe, OnSubscribe, OnSend, OrdersFit, JavaParse, PlainHeaders, Answers;
      if f.command == "CONNECT" {
        OnConnectSends(t, p', f, o);
      } else if f.command == "DISCONNECT" {
        OnDisconnectSends(t, p', f, o);
      } else if f.command == "UNSUBSCRIBE" {
        OnUnsubscribeSends(t, p', f, o);
      } else if f.command == "SUBSCRIBE" {
        OnSubscribeSends(t, p', f, o);
      } else if f.command == "SEND" {
        OnSendSends(t, p', f, o);
      }
    }
  }

  // ----- Runs -----

  ghost predicate AllPrintable(sent: seq<Delivery>) {
    forall i | 0 <= i < |sent| :: Printable(sent[i].frame)
  }

  lemma StepPrintable(w: World, s: Step)
    requires AllPrintable(w.tables.sent)
    ensures AllPrintable(Apply(w, s).tables.sent)
  {
    hide Processed;
    if Enabled(w, s) && s.Process? {
      ProcessSends(w.tables, w.protos[s.conn].(connectionID := s.conn), s.message, s.orders);
    }
  }

  lemma {:induction false} RunPrintable(steps: seq<Step>, n: nat)
    requires n <= |steps|
    ensures AllPrintable(At(steps, n).tables.sent)
  {
    hide Apply;
    if n > 0 {
      RunPrintable(steps, n - 1);
      StepPrintable(At(steps, n - 1), steps[n - 1]);
    } else {
      assert INITIAL.tables.sent == [];
    }
  }

  /** If no message holds a NUL, no frame that is sent does. */
  lemma {:induction false} RunNulFree(steps: seq<Step>, n: nat)
    requires n <= |steps| && forall k | 0 <= k < |steps| && steps[k].Process? :: Free(steps[k].message, NUL)
    ensures forall i | 0 <= i < |At(steps, n).tables.sent| :: NulFree(At(steps, n).tables.sent[i].frame)
  {
    if n > 0 {
      RunNulFree(steps, n - 1);
      StepNulFree(At(steps, n - 1), steps[n - 1]);
      hide Apply, NulFree;
    }
  }

  lemma StepNulFree(w: World, s: Step)
    requires s.Process? ==> Free(s.message, NUL)
    requires forall i | 0 <= i < |w.tables.sent| :: NulFree(w.tables.sent[i].frame)
    ensures var sent := Apply(w, s).tables.sent; forall i | 0 <= i < |sent| :: NulFree(sent[i].frame)
  {
    hide Processed, NulFree, JavaParse;
    if Enabled(w, s) && s.Process? {
      ParsedIsNulFree(s.message);
      ProcessSends(w.tables, w.protos[s.conn].(connectionID := s.conn), s.message, s.orders);
    }
  }

  /** In any run, whatever clients have sent, the text of every frame the
      server sends is read back by the client, in any order of the headers. */
  lemma EveryFrameIsReadBack(steps: seq<Step>, i: nat, order: seq<string>)
    requires i < |At(steps, |steps|).tables.sent|
    requires IsOrder(order, At(steps, |steps|).tables.sent[i].frame.headers.Keys)
    ensures var f := At(steps, |steps|).tables.sent[i].frame;
            CppParse(JavaPrint(f, order) + [NUL]) == Ok(f.(body := Norm(f.body + "\n") + [NUL]))
  {
    hide At;
    RunPrintable(steps, |steps|);
    ServerToClient(At(steps, |steps|).tables.sent[i].frame, order);
  }
}
