/** One call of `process`, for any text on any connection, as that connection
    can tell: its subscriptions, the answers it is sent, and the exception. */
module OneCall {
  import opened Text
  import opened StompFrames
  import opened Decimal
  import opened ConnectionTables
  import opened ServerProtocol
  import opened ServerRuns
  import opened SentFrames
  import opened ServerView
  import opened LoginTables
  import opened BroadcastHistory

  /** The subscriptions after the call, what is sent in answer, and whether an
      exception leaves the call. */
  datatype Verdict = Verdict(view: map<string, int>, answers: seq<Frame>, throws: bool)

  /** The first channel, in iteration order, that is subscribed under this very
      box. */
  function ChannelWith(view: map<string, int>, subId: int, order: seq<string>): (r: Option<string>)
    ensures r.Some? ==> r.value in view && view[r.value] == subId
    decreases |order|
  {
    if order == [] then None
    else if order[0] in view && SameBox(view[order[0]], subId) then Some(order[0])
    else ChannelWith(view, subId, order[1..])
  }

  const TAKEN := ErrorFrame(map["message" := "User is already connected"])
  const WRONG := ErrorFrame(map["message" := "Wrong password"])

  function NotJoined(channel: string): Frame {
    ErrorFrame(map["message" := "The user isn't subscribed to channel: " + channel])
  }

  function NotUnder(f: Frame): Frame {
    ErrorFrame(map["receipt-id" := Printed(Header(f, "receipt")),
                   "message" := "The user isn't subscribed with that number: " + Printed(Header(f, "id"))])
  }

  function Joined(f: Frame, channel: string): Frame {
    ErrorFrame(map["receipt-id" := Printed(Header(f, "receipt")),
                   "message" := "The user already subscribed to channel: " + channel])
  }

  function AskedReceipt(f: Frame): Frame {
    ReceiptFrame(Header(f, "receipt"))
  }

  function ConnectVerdict(t: Tables, view: map<string, int>, f: Frame): Verdict {
    match Header(f, "login")
    case None => Verdict(view, [], true)
    case Some(login) =>
      var passcode := Header(f, "passcode");
      if MayConnect(t, login, passcode) then Verdict(view, [CONNECTED], false)
      else if login in t.loggedIn then Verdict(view, [TAKEN], false)
      else if login in t.users then Verdict(view, [WRONG, WRONG], false)
      else Verdict(view, [], true)
  }

  function UnsubscribeVerdict(view: map<string, int>, f: Frame, o: Orders): Verdict {
    match HeaderNumber(Header(f, "id"))
    case Err(_) => Verdict(view, [], true)
    case Ok(subId) =>
      match ChannelWith(view, subId, o.channels)
      case None => Verdict(view, [NotUnder(f)], false)
      case Some(ch) => Verdict(view - {ch}, [AskedReceipt(f)], false)
  }

  function SubscribeVerdict(view: map<string, int>, f: Frame): Verdict {
    match (HeaderNumber(Header(f, "id")), Header(f, "destination"))
    case (Ok(subId), Some(channel)) =>
      if channel in view then Verdict(view, [Joined(f, channel)], false)
      else Verdict(view[channel := subId], [AskedReceipt(f)], false)
    case _ => Verdict(view, [], true)
  }

  function SendVerdict(t: Tables, view: map<string, int>, f: Frame): Verdict {
    match Header(f, "destination")
    case None => Verdict(view, [], true)
    case Some(channel) =>
      if channel !in view || view[channel] == -1 then Verdict(view, [NotJoined(channel), NotJoined(channel)], false)
      else Verdict(view, [], HasNull(t, channel))
  }

  predicate KnownCommand(c: string) {
    c == "CONNECT" || c == "DISCONNECT" || c == "UNSUBSCRIBE" || c == "SUBSCRIBE" || c == "SEND"
  }

  /** A frame of a connection that is in the table, or has been removed. */
  function FrameVerdict(t: Tables, me: int, f: Frame, o: Orders): Verdict
    requires OrdersFit(t, o)
  {
    var view := View(t, me);
    if me !in t.active then Verdict(view, [], KnownCommand(f.command))
    else if f.command == "CONNECT" then ConnectVerdict(t, view, f)
    else if f.command == "DISCONNECT" then Verdict(view, [AskedReceipt(f)], DropFails(t, o))
    else if f.command == "UNSUBSCRIBE" then UnsubscribeVerdict(view, f, o)
    else if f.command == "SUBSCRIBE" then SubscribeVerdict(view, f)
    else if f.command == "SEND" then SendVerdict(t, view, f)
    else Verdict(view, [], false)
  }

  function TextVerdict(t: Tables, me: int, text: string, o: Orders): Verdict
    requires OrdersFit(t, o)
  {
    match JavaParse(text)
    case Err(_) => Verdict(View(t, me), [], true)
    case Ok(f) => FrameVerdict(t, me, f, o)
  }

  predicate HasError(answers: seq<Frame>) {
    exists i :: 0 <= i < |answers| && answers[i].command == "ERROR"
  }

  /** The effect is what the verdict says.  A connection leaves the table only
      with an ERROR. */
  ghost predicate Gives(t: Tables, e: Effect, me: int, v: Verdict) {
    && t.sent <= e.tables.sent
    && View(e.tables, me) == v.view
    && OwnAnswers(e.tables.sent, me) == OwnAnswers(t.sent, me) + v.answers
    && (e.thrown.Some? <==> v.throws)
    && (me in e.tables.active ==> me in t.active)
    && (me in t.active && !HasError(v.answers) ==> me in e.tables.active)
  }

  // ----- Answers -----

  lemma AnswerNamesDiffer()
    ensures TAKEN.command == WRONG.command == "ERROR" && CONNECTED.command == "CONNECTED"
    ensures "RECEIPT" != "MESSAGE" && "RECEIPT" != "ERROR" && "MESSAGE" != "ERROR"
    ensures "CONNECTED" != "MESSAGE" && "CONNECTED" != "ERROR"
  {
    var r, m, e, c := "RECEIPT", "MESSAGE", "ERROR", "CONNECTED";
    assert r[0] == 'R' && m[0] == 'M' && |r| == 7 && |m| == 7 && |e| == 5 && |c| == 9;
  }

  ghost predicate Live(t: Tables, p: Proto) {
    Lookup(t, p.connectionID) == Conn(p.connectionID) && Lookup(t, t.counter) != Conn(p.connectionID)
  }

  /** An answer to a connection that is there. */
  lemma AnswerGives(t: Tables, t': Tables, p: Proto, frame: Frame)
    requires Lookup(t', p.connectionID) == Conn(p.connectionID) && t'.sent == t.sent && frame.command != "MESSAGE"
    requires p.connectionID in t.active
    requires frame.command != "ERROR"
    ensures Gives(t, Answer(t', p, frame), p.connectionID, Verdict(View(t', p.connectionID), [frame], false))
  {
    InboxSnoc(t.sent, Delivery(p.connectionID, frame), p.connectionID);
  }

  /** An ERROR, and its expulsion. */
  lemma RejectedGives(t: Tables, p: Proto, frame: Frame, o: Orders)
    requires OrdersFit(t, o) && Live(t, p) && frame.command == "ERROR" && p.connectionID in t.active
    ensures Gives(t, Rejected(t, p, frame, o), p.connectionID, Verdict(View(t, p.connectionID), [frame], false))
  {
    AnswerNamesDiffer();
    InboxSnoc(t.sent, Delivery(p.connectionID, frame), p.connectionID);
    RejectedIs(t, p, frame, o);
    assert [frame][0].command == "ERROR";
    hide View, OwnAnswers, Rejected, OrdersFit, Live;
  }

  lemma RejectedIs(t: Tables, p: Proto, frame: Frame, o: Orders)
    requires OrdersFit(t, o) && Live(t, p)
    ensures var e := Rejected(t, p, frame, o);
            && e.tables.sent == t.sent + [Delivery(p.connectionID, frame)]
            && View(e.tables, p.connectionID) == View(t, p.connectionID)
            && e.thrown.None?
            && (forall id :: id in e.tables.active ==> id in t.active)
  {
    var one := Answer(t, p, frame).tables;
    var closed := one.(closed := one.closed + {p.connectionID});
    DisconnectedMeans(closed, p.connectionID, o);
    hide Disconnected, OrdersFit;
    var out := Disconnected(closed, p.connectionID, o).0;
    DropsKeepView(closed.(loggedIn := out.loggedIn), out, Lookup(t, t.counter), p.connectionID);
    SameChannels(t, closed.(loggedIn := out.loggedIn), p.connectionID);
    SameChannels(out, Rejected(t, p, frame, o).tables, p.connectionID);
    hide View;
  }

  lemma SameChannels(t: Tables, t': Tables, me: int)
    requires t'.channels == t.channels
    ensures View(t', me) == View(t, me)
  {
  }

  /** The ERROR that is sent twice. */
  lemma RejectedTwiceGives(t: Tables, p: Proto, frame: Frame, o: Orders)
    requires OrdersFit(t, o) && Live(t, p) && frame.command == "ERROR" && p.connectionID in t.active
    ensures Answer(t, p, frame).thrown.None? && Answer(t, p, frame).proto == p
    ensures OrdersFit(Answer(t, p, frame).tables, o)
    ensures Gives(t, Rejected(Answer(t, p, frame).tables, p, frame, o), p.connectionID,
                  Verdict(View(t, p.connectionID), [frame, frame], false))
  {
    var one := t.(sent := t.sent + [Delivery(p.connectionID, frame)]);
    assert Answer(t, p, frame) == Effect(one, p, None);
    hide View, OwnAnswers, Rejected, Answer;
    AnswerNamesDiffer();
    InboxSnoc(t.sent, Delivery(p.connectionID, frame), p.connectionID);
    SameChannels(t, one, p.connectionID);
    RejectedGives(one, p, frame, o);
    hide OrdersFit;
    assert [frame, frame][0].command == "ERROR";
    TwoMore(OwnAnswers(t.sent, p.connectionID), frame);
  }

  lemma TwoMore<T>(s: seq<T>, x: T)
    ensures s + [x] + [x] == s + [x, x]
  {
  }

  // ----- The branches, for a connection that is there -----

  ghost predicate Stands(t: Tables, p: Proto, o: Orders) {
    OrdersFit(t, o) && Live(t, p) && p.connectionID in t.active
  }

  lemma ConnectGives(t: Tables, p: Proto, f: Frame, o: Orders)
    requires Stands(t, p, o)
    ensures Gives(t, OnConnect(t, p, f, o), p.connectionID, ConnectVerdict(t, View(t, p.connectionID), f))
  {
    AnswerNamesDiffer();
    hide View, Gives, Rejected;
    if Header(f, "login").Some? {
      var login, passcode := Header(f, "login").value, Header(f, "passcode");
      if login in t.loggedIn {
        RejectedGives(t, p, TAKEN, o);
      } else {
        ConnectedKeepsView(t, login, passcode, p.connectionID, p.connectionID);
        var (t', r) := Connected(t, login, passcode, p.connectionID);
        if r == Ok(true) {
          AnswerGives(t, t', p, CONNECTED);
        } else if r == Ok(false) {
          RejectedTwiceGives(t, p, WRONG, o);
        } else {
          NothingGives(t, t', p);
        }
      }
    } else {
      NothingGives(t, t, p);
    }
  }

  /** A call that throws before it has changed anything the connection sees. */
  lemma NothingGives(t: Tables, t': Tables, p: Proto)
    requires t'.sent == t.sent && t'.active == t.active && View(t', p.connectionID) == View(t, p.connectionID)
    ensures forall e :: Gives(t, Effect(t', p, Some(e)), p.connectionID, Verdict(View(t, p.connectionID), [], true))
    ensures Gives(t, Effect(t', p, None), p.connectionID, Verdict(View(t, p.connectionID), [], false))
  {
    assert OwnAnswers(t.sent, p.connectionID) + [] == OwnAnswers(t.sent, p.connectionID);
    hide View, OwnAnswers;
  }

  lemma DisconnectGives(t: Tables, p: Proto, f: Frame, o: Orders)
    requires Stands(t, p, o)
    ensures Gives(t, OnDisconnect(t, p, f, o), p.connectionID,
                  Verdict(View(t, p.connectionID), [AskedReceipt(f)], DropFails(t, o)))
  {
    AnswerNamesDiffer();
    AnswerGives(t, t, p, AskedReceipt(f));
    var one := Answer(t, p, AskedReceipt(f)).tables;
    var me := p.connectionID;
    DisconnectedMeans(one, me, o);
    DisconnectedFails(one, me, o);
    assert DropFails(one, o) <==> DropFails(t, o);
    hide Disconnected, OrdersFit, DropFails;
    var out := Disconnected(one, me, o).0;
    DropsKeepView(one.(loggedIn := out.loggedIn), out, Lookup(t, t.counter), me);
    SameChannels(t, one.(loggedIn := out.loggedIn), me);
    hide View, OwnAnswers;
  }

  /** The channel that is unsubscribed, in the view of the connection. */
  lemma {:induction false} UnsubscribedIs(t: Tables, subId: int, me: int, order: seq<string>)
    ensures var (t', done) := Unsubscribed(t, subId, Conn(me), order);
            match ChannelWith(View(t, me), subId, order)
            case None => !done && t' == t
            case Some(ch) => done && View(t', me) == View(t, me) - {ch} && t' == t.(channels := t'.channels)
    decreases |order|
  {
    if order != [] && !(order[0] in View(t, me) && SameBox(View(t, me)[order[0]], subId)) {
      UnsubscribedIs(t, subId, me, order[1..]);
    }
  }

  lemma UnsubscribeGives(t: Tables, p: Proto, f: Frame, o: Orders)
    requires Stands(t, p, o)
    ensures Gives(t, OnUnsubscribe(t, p, f, o), p.connectionID, UnsubscribeVerdict(View(t, p.connectionID), f, o))
  {
    AnswerNamesDiffer();
    hide View, Gives, Rejected, HeaderNumber, OrdersFit;
    match HeaderNumber(Header(f, "id"))
    case Err(_) => NothingGives(t, t, p);
    case Ok(subId) =>
      UnsubscribedIs(t, subId, p.connectionID, o.channels);
      var (t', done) := Unsubscribed(t, subId, Conn(p.connectionID), o.channels);
      hide Unsubscribed, ChannelWith;
      if done {
        AnswerGives(t, t', p, AskedReceipt(f));
      } else {
        RejectedGives(t, p, NotUnder(f), o);
      }
  }

  lemma SubscribedIs(t: Tables, channel: string, subId: int, me: int)
    ensures var (t', done) := Subscribed(t, channel, subId, Conn(me));
            && (done <==> channel !in View(t, me))
            && (done ==> View(t', me) == View(t, me)[channel := subId] && t' == t.(channels := t'.channels))
            && (!done ==> t' == t)
  {
  }

  lemma SubscribeGives(t: Tables, p: Proto, f: Frame, o: Orders)
    requires Stands(t, p, o)
    ensures Gives(t, OnSubscribe(t, p, f, o), p.connectionID, SubscribeVerdict(View(t, p.connectionID), f))
  {
    AnswerNamesDiffer();
    hide View, Gives, Rejected, HeaderNumber, OrdersFit;
    NothingGives(t, t, p);
    if HeaderNumber(Header(f, "id")).Ok? && Header(f, "destination").Some? {
      var subId, channel := HeaderNumber(Header(f, "id")).value, Header(f, "destination").value;
      SubscribedIs(t, channel, subId, p.connectionID);
      var (t', done) := Subscribed(t, channel, subId, Conn(p.connectionID));
      hide Subscribed;
      if done {
        AnswerGives(t, t', p, AskedReceipt(f));
      } else {
        RejectedGives(t, p, Joined(f, channel), o);
      }
    }
  }

  lemma SubIdIs(t: Tables, channel: string, me: int)
    requires Lookup(t, me) == Conn(me)
    ensures UserSubId(t, channel, me) == if channel in View(t, me) then View(t, me)[channel] else -1
    ensures channel in View(t, me) ==> channel in t.channels
  {
  }

  /** A broadcast answers nobody. */
  lemma BroadcastGives(t: Tables, p: Proto, order: seq<Handler>, message: Frame)
    requires message.command == "MESSAGE"
    ensures var (t', thrown) := Broadcast(t, order, message);
            Gives(t, Effect(t', p, thrown), p.connectionID, Verdict(View(t, p.connectionID), [], Null in order))
  {
    BroadcastReaches(t, order, message);
    DeliveriesAre(Reached(order), message);
    var t' := Broadcast(t, order, message).0;
    hide Broadcast, Reached, Deliveries;
    NoNewAnswers(t.sent, t'.sent, p.connectionID);
    assert OwnAnswers(t.sent, p.connectionID) + [] == OwnAnswers(t.sent, p.connectionID);
    SameChannels(t, t', p.connectionID);
    hide View, OwnAnswers;
  }

  lemma SendGives(t: Tables, p: Proto, f: Frame, o: Orders)
    requires Stands(t, p, o)
    ensures Gives(t, OnSend(t, p, f, o), p.connectionID, SendVerdict(t, View(t, p.connectionID), f))
  {
    AnswerNamesDiffer();
    hide View, Rejected, ToString;
    if Header(f, "destination").Some? {
      var channel := Header(f, "destination").value;
      SubIdIs(t, channel, p.connectionID);
      if UserSubId(t, channel, p.connectionID) == -1 {
        hide Gives, UserSubId;
        RejectedTwiceGives(t, p, NotJoined(channel), o);
      } else {
        var message := MessageFrame(UserSubId(t, channel, p.connectionID), p.messageID, channel, f.body);
        BroadcastGives(t, p, o.subscribers[channel], message);
        hide UserSubId, Broadcast, OwnAnswers;
      }
    } else {
      NothingGives(t, t, p);
    }
  }

  // ----- A connection that has been removed -----

  /** Whatever it sends, nothing of it is answered and its subscriptions stay;
      every known command throws. */
  lemma GoneGives(t: Tables, p: Proto, f: Frame, o: Orders)
    requires OrdersFit(t, o) && Lookup(t, p.connectionID) == Null && p.connectionID !in t.active
    ensures Gives(t, Handled(t, p, f, o), p.connectionID,
                  Verdict(View(t, p.connectionID), [], KnownCommand(f.command)))
  {
    var p' := p.(shouldTerminate := f.command == "DISCONNECT");
    NothingGives(t, t, p');
    hide View, OwnAnswers;
    if f.command == "CONNECT" {
      GoneConnects(t, p', f, o);
    } else if f.command == "SUBSCRIBE" || f.command == "UNSUBSCRIBE" {
      GoneSubscribes(t, p', f, o);
    } else if f.command == "SEND" {
      GoneSends(t, p', f, o);
    }
    hide OnConnect, OnUnsubscribe, OnSubscribe, OnSend, OrdersFit;
  }

  predicate Silent(t: Tables, p: Proto, e: Effect) {
    && e.thrown.Some? && View(e.tables, p.connectionID) == View(t, p.connectionID)
    && (e.tables.active == t.active)
  }

  lemma GoneConnects(t: Tables, p: Proto, f: Frame, o: Orders)
    requires OrdersFit(t, o) && Lookup(t, p.connectionID) == Null
    ensures Silent(t, p, OnConnect(t, p, f, o)) && OnConnect(t, p, f, o).tables.sent == t.sent
  {
  }

  lemma GoneSubscribes(t: Tables, p: Proto, f: Frame, o: Orders)
    requires OrdersFit(t, o) && Lookup(t, p.connectionID) == Null
    ensures Silent(t, p, OnSubscribe(t, p, f, o)) && OnSubscribe(t, p, f, o).tables.sent == t.sent
    ensures Silent(t, p, OnUnsubscribe(t, p, f, o)) && OnUnsubscribe(t, p, f, o).tables.sent == t.sent
  {
    if HeaderNumber(Header(f, "id")).Ok? {
      var subId := HeaderNumber(Header(f, "id")).value;
      UnsubscribedKeepsView(t, subId, Null, o.channels, p.connectionID);
      if Header(f, "destination").Some? {
        SubscribedKeepsView(t, Header(f, "destination").value, subId, Null, p.connectionID);
      }
      hide View, HeaderNumber, Subscribed, Unsubscribed, OrdersFit;
    }
  }

  /** It may reach subscribers before the null key it finds. */
  lemma GoneSends(t: Tables, p: Proto, f: Frame, o: Orders)
    requires OrdersFit(t, o) && Lookup(t, p.connectionID) == Null && p.connectionID !in t.active
    ensures Gives(t, OnSend(t, p, f, o), p.connectionID, Verdict(View(t, p.connectionID), [], true))
  {
    NothingGives(t, t, p);
    NothingGives(t, t, p.(messageID := p.messageID + 1));
    hide View, ToString;
    if Header(f, "destination").Some? {
      var channel := Header(f, "destination").value;
      if UserSubId(t, channel, p.connectionID) != -1 {
        var message := MessageFrame(UserSubId(t, channel, p.connectionID), p.messageID, channel, f.body);
        BroadcastGives(t, p, o.subscribers[channel], message);
        assert Null in o.subscribers[channel];
      }
    }
    hide Broadcast, OwnAnswers;
  }

  // ----- Any call -----

  lemma HandledGives(t: Tables, p: Proto, f: Frame, o: Orders)
    requires OrdersFit(t, o) && Lookup(t, t.counter) != Conn(p.connectionID)
    requires Lookup(t, p.connectionID) == if p.connectionID in t.active then Conn(p.connectionID) else Null
    ensures Gives(t, Handled(t, p, f, o), p.connectionID, FrameVerdict(t, p.connectionID, f, o))
  {
    var p' := p.(shouldTerminate := f.command == "DISCONNECT");
    CommandNamesDiffer();
    if p.connectionID !in t.active {
      GoneGives(t, p, f, o);
      hide Handled, Gives;
    } else {
      assert Stands(t, p', o);
      hide OnConnect, OnDisconnect, OnUnsubscribe, OnSubscribe, OnSend, Gives, Stands, OrdersFit, View,
           ConnectVerdict, UnsubscribeVerdict, SubscribeVerdict, SendVerdict, DropFails;
      if f.command == "CONNECT" {
        ConnectGives(t, p', f, o);
      } else if f.command == "DISCONNECT" {
        DisconnectGives(t, p', f, o);
      } else if f.command == "UNSUBSCRIBE" {
        UnsubscribeGives(t, p', f, o);
      } else if f.command == "SUBSCRIBE" {
        SubscribeGives(t, p', f, o);
      } else if f.command == "SEND" {
        SendGives(t, p', f, o);
      } else {
        NothingGives(t, t, p');
      }
    }
  }

  lemma CommandNamesDiffer()
    ensures "CONNECT" != "DISCONNECT"
  {
    var a, b := "CONNECT", "DISCONNECT";
    assert |a| != |b|;
  }

  /** Whatever the text and the state, the call does to its own connection what
      the verdict says. */
  lemma CallGives(w: World, me: int, text: string, o: Orders)
    requires Inv(w) && me in w.protos && OrdersFit(w.tables, o)
    ensures Gives(w.tables, Called(w, Process(me, text, o)), me, TextVerdict(w.tables, me, text, o))
  {
    var t, p := w.tables, w.protos[me].(connectionID := me);
    assert Lookup(t, me) == if me in t.active then Conn(me) else Null;
    assert Lookup(t, t.counter) != Conn(me);
    NothingGives(t, t, p);
    hide JavaParse, Handled, FrameVerdict, Gives, View, OrdersFit, Inv, Lookup;
    if JavaParse(text).Ok? {
      HandledGives(t, p, JavaParse(text).value, o);
    }
  }

  // ----- What has been sent in between -----

  ghost predicate ErrorSince(t: Tables, t': Tables, me: int) {
    exists i :: |t.sent| <= i < |t'.sent| && t'.sent[i].to == me && t'.sent[i].frame.command == "ERROR"
  }

  lemma NoAnswers(me: int)
    ensures OwnAnswers([], me) == []
  {
  }

  lemma {:induction false} AnswersSplit(sent: seq<Delivery>, more: seq<Delivery>, me: int)
    ensures OwnAnswers(sent + more, me) == OwnAnswers(sent, me) + OwnAnswers(more, me)
  {
    NoAnswers(me);
    hide OwnAnswers;
    if more == [] {
      assert sent + more == sent;
      assert OwnAnswers(sent, me) + [] == OwnAnswers(sent, me);
    } else {
      var n := |more| - 1;
      AnswersSplit(sent, more[..n], me);
      InboxSnoc(sent + more[..n], more[n], me);
      InboxSnoc(more[..n], more[n], me);
      assert sent + more[..n] + [more[n]] == sent + more && more[..n] + [more[n]] == more;
      var last := if more[n].to == me && more[n].frame.command != "MESSAGE" then [more[n].frame] else [];
      Assoc(OwnAnswers(sent, me), OwnAnswers(more[..n], me), last);
    }
  }

  /** An ERROR among the deliveries is an ERROR among the answers. */
  lemma {:induction false} ErrorsAreAnswers(sent: seq<Delivery>, me: int)
    ensures HasError(OwnAnswers(sent, me)) <==>
            exists i :: 0 <= i < |sent| && sent[i].to == me && sent[i].frame.command == "ERROR"
  {
    if sent != [] {
      AnswerNamesDiffer();
      var n := |sent| - 1;
      ErrorsAreAnswers(sent[..n], me);
      assert sent[..n] + [sent[n]] == sent;
      InboxSnoc(sent[..n], sent[n], me);
      var before, last := OwnAnswers(sent[..n], me), sent[n];
      if HasError(before) {
        var i :| 0 <= i < n && sent[..n][i].to == me && sent[..n][i].frame.command == "ERROR";
        assert sent[i] == sent[..n][i];
        HasErrorMore(before, OwnAnswers(sent, me)[|before|..]);
      } else if last.to == me && last.frame.command == "ERROR" {
        assert OwnAnswers(sent, me)[|before|] == last.frame;
      } else {
        forall i | 0 <= i < |sent| && sent[i].to == me
          ensures sent[i].frame.command != "ERROR"
        {
          if i < n {
            assert sent[..n][i] == sent[i];
          }
        }
        assert OwnAnswers(sent, me)[..|before|] == before;
      }
    }
  }

  lemma HasErrorMore(a: seq<Frame>, b: seq<Frame>)
    ensures HasError(a + b) <==> HasError(a) || HasError(b)
  {
    if HasError(a) {
      var i :| 0 <= i < |a| && a[i].command == "ERROR";
      assert (a + b)[i] == a[i];
    }
    if HasError(b) {
      var i :| 0 <= i < |b| && b[i].command == "ERROR";
      assert (a + b)[|a| + i] == b[i];
    }
    if HasError(a + b) {
      var i :| 0 <= i < |a + b| && (a + b)[i].command == "ERROR";
      assert i < |a| ==> a[i] == (a + b)[i];
      assert i >= |a| ==> b[i - |a|] == (a + b)[i];
    }
  }

  lemma SameRest<T>(all: seq<T>, a: seq<T>, b: seq<T>)
    requires all + a == all + b
    ensures a == b
  {
    assert (all + a)[|all|..] == a && (all + b)[|all|..] == b;
  }

  lemma ErrorsInRest(sent: seq<Delivery>, since: seq<Delivery>, me: int)
    ensures (exists i :: |sent| <= i < |sent + since| && (sent + since)[i].to == me
                         && (sent + since)[i].frame.command == "ERROR") <==>
            (exists i :: 0 <= i < |since| && since[i].to == me && since[i].frame.command == "ERROR")
  {
    var all, n := sent + since, |sent|;
    assert forall i | n <= i < |all| :: all[i] == since[i - n];
    if exists i :: 0 <= i < |since| && since[i].to == me && since[i].frame.command == "ERROR" {
      var i :| 0 <= i < |since| && since[i].to == me && since[i].frame.command == "ERROR";
      assert all[n + i] == since[i];
    }
  }

  /** A call sends its connection an ERROR exactly when its verdict has one. */
  lemma GivesError(t: Tables, e: Effect, me: int, v: Verdict)
    requires Gives(t, e, me, v)
    ensures ErrorSince(t, e.tables, me) <==> HasError(v.answers)
  {
    hide View, OwnAnswers, HasError;
    var since := e.tables.sent[|t.sent|..];
    assert e.tables.sent == t.sent + since;
    AnswersSplit(t.sent, since, me);
    SameRest(OwnAnswers(t.sent, me), v.answers, OwnAnswers(since, me));
    ErrorsAreAnswers(since, me);
    ErrorsInRest(t.sent, since, me);
  }

  // ----- When there is an ERROR -----

  /** When a frame of a connection that is there gets an ERROR. */
  predicate FrameUpset(t: Tables, view: map<string, int>, f: Frame) {
    if f.command == "CONNECT" then
      && Header(f, "login").Some?
      && var login := Header(f, "login").value;
         login in t.loggedIn || (login in t.users && Header(f, "passcode") != Some(t.users[login]))
    else if f.command == "UNSUBSCRIBE" then
      && HeaderNumber(Header(f, "id")).Ok?
      && forall ch | ch in view :: !SameBox(view[ch], HeaderNumber(Header(f, "id")).value)
    else if f.command == "SUBSCRIBE" then
      HeaderNumber(Header(f, "id")).Ok? && Header(f, "destination").Some? && Header(f, "destination").value in view
    else
      && f.command == "SEND" && Header(f, "destination").Some?
      && (Header(f, "destination").value !in view || view[Header(f, "destination").value] == -1)
  }

  predicate TextUpset(t: Tables, me: int, text: string) {
    me in t.active && JavaParse(text).Ok? && FrameUpset(t, View(t, me), JavaParse(text).value)
  }

  lemma {:induction false} NoSuchBox(view: map<string, int>, subId: int, order: seq<string>)
    ensures ChannelWith(view, subId, order).None? <==>
            forall ch | ch in order && ch in view :: !SameBox(view[ch], subId)
    ensures ChannelWith(view, subId, order).Some? ==> SameBox(view[ChannelWith(view, subId, order).value], subId)
    decreases |order|
  {
    if order != [] {
      NoSuchBox(view, subId, order[1..]);
      assert order == [order[0]] + order[1..];
    }
  }

  lemma OneAnswer(f: Frame)
    ensures HasError([f]) <==> f.command == "ERROR"
    ensures HasError([f, f]) <==> f.command == "ERROR"
    ensures !HasError([])
  {
    assert [f][0] == f && [f, f][0] == f;
  }

  lemma ConnectUpset(t: Tables, me: int, f: Frame)
    requires f.command == "CONNECT"
    ensures HasError(ConnectVerdict(t, View(t, me), f).answers) <==> FrameUpset(t, View(t, me), f)
  {
    AnswerNamesDiffer();
    OneAnswer(TAKEN);
    OneAnswer(WRONG);
    OneAnswer(CONNECTED);
    hide View, HasError, HeaderNumber;
  }

  lemma UnsubscribeUpset(t: Tables, me: int, f: Frame, o: Orders)
    requires f.command == "UNSUBSCRIBE" && OrdersFit(t, o)
    ensures HasError(UnsubscribeVerdict(View(t, me), f, o).answers) <==> FrameUpset(t, View(t, me), f)
  {
    AnswerNamesDiffer();
    OneAnswer(AskedReceipt(f));
    OneAnswer(NotUnder(f));
    if HeaderNumber(Header(f, "id")).Ok? {
      NoSuchBox(View(t, me), HeaderNumber(Header(f, "id")).value, o.channels);
      assert forall ch | ch in View(t, me) :: ch in o.channels;
    }
    hide View, HasError, HeaderNumber, ChannelWith;
  }

  lemma SubscribeUpset(t: Tables, me: int, f: Frame)
    requires f.command == "SUBSCRIBE"
    ensures HasError(SubscribeVerdict(View(t, me), f).answers) <==> FrameUpset(t, View(t, me), f)
  {
    AnswerNamesDiffer();
    OneAnswer(AskedReceipt(f));
    if Header(f, "destination").Some? {
      OneAnswer(Joined(f, Header(f, "destination").value));
    }
    hide View, HasError, HeaderNumber;
  }

  lemma SendUpset(t: Tables, me: int, f: Frame)
    requires f.command == "SEND"
    ensures HasError(SendVerdict(t, View(t, me), f).answers) <==> FrameUpset(t, View(t, me), f)
  {
    AnswerNamesDiffer();
    OneAnswer(CONNECTED);
    if Header(f, "destination").Some? {
      OneAnswer(NotJoined(Header(f, "destination").value));
    }
    hide View, HasError, HeaderNumber;
  }

  /** Whatever the text, an ERROR is sent exactly when it upsets the server. */
  lemma UpsetIff(t: Tables, me: int, text: string, o: Orders)
    requires OrdersFit(t, o)
    ensures HasError(TextVerdict(t, me, text, o).answers) <==> TextUpset(t, me, text)
  {
    OneAnswer(CONNECTED);
    AnswerNamesDiffer();
    CommandNamesDiffer();
    hide JavaParse, View, HasError, OrdersFit, ConnectVerdict, UnsubscribeVerdict, SubscribeVerdict, SendVerdict,
         DropFails, HeaderNumber;
    if JavaParse(text).Ok? && me in t.active {
      var f := JavaParse(text).value;
      OneAnswer(AskedReceipt(f));
      if f.command == "CONNECT" {
        ConnectUpset(t, me, f);
      } else if f.command == "UNSUBSCRIBE" {
        UnsubscribeUpset(t, me, f, o);
      } else if f.command == "SUBSCRIBE" {
        SubscribeUpset(t, me, f);
      } else if f.command == "SEND" {
        SendUpset(t, me, f);
      }
    }
  }
}
