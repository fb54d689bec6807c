/** What the server does with the requests of a client that keeps to its own
    tables. */
module OwnRequests {
  import opened Text
  import opened Splitter
  import opened StompFrames
  import opened RoundTrips
  import opened Decimal
  import opened ConnectionTables
  import opened ServerProtocol
  import opened ServerRuns
  import opened SentFrames
  import opened ServerView
  import opened LoginTables
  import opened BroadcastHistory
  import opened OneCall
  import opened ClientSession

  /** What the wire can carry in one frame: words from the keyboard, which hold
      neither a line end nor a NUL, as they go through a C string; numbers that
      fit an int; and bodies without NUL. */
  predicate Sendable(r: Request) {
    match r
    case Connect(login, passcode) => Plain(login) && Plain(passcode)
    case Subscribe(channel, id, receipt) => Plain(channel) && IsInt(id) && IsInt(receipt)
    case Unsubscribe(channel, id, receipt) => Plain(channel) && IsInt(id) && IsInt(receipt)
    case Send(channel, body) => Plain(channel) && Free(body, NUL)
    case Disconnect(receipt) => IsInt(receipt)
  }

  /** The frame as the server parses it. */
  function Arrived(r: Request): Frame {
    FrameOf(r).(body := Norm(FrameOf(r).body + "\n"))
  }

  lemma RequestArrives(r: Request)
    requires Sendable(r)
    ensures JavaParse(WireText(r)) == Ok(Arrived(r))
  {
    HeaderOrderIsOrder(r);
    RequestIsPrintable(r);
    ClientToServer(FrameOf(r), HeaderOrder(r));
  }

  lemma HeaderNamesArePlain()
    ensures PlainName("accept-version") && PlainName("host") && PlainName("login") && PlainName("passcode")
    ensures PlainName("destination") && PlainName("id") && PlainName("receipt")
    ensures Free("1.2", '\n') && Free("stomp.cs.bgu.ac.il", '\n')
  {
  }

  lemma CommandsAreLines(r: Request)
    ensures TextLine(FrameOf(r).command)
  {
  }

  lemma RequestIsPrintable(r: Request)
    requires Sendable(r)
    ensures Printable(FrameOf(r))
  {
    HeaderNamesArePlain();
    CommandsAreLines(r);
    hide Free, TextLine;
    match r
    case Connect(_, _) =>
    case Subscribe(_, id, receipt) =>
      ToStringPlain(id);
      ToStringPlain(receipt);
    case Unsubscribe(_, id, receipt) =>
      ToStringPlain(id);
      ToStringPlain(receipt);
    case Send(_, _) =>
    case Disconnect(receipt) => ToStringPlain(receipt);
  }

  // ----- The client's picture of the server -----

  predicate Sane(view: map<string, int>) {
    && (forall ch | ch in view :: 0 <= view[ch])
    && (forall ch, ch' | ch in view && ch' in view && view[ch] == view[ch'] :: ch == ch')
  }

  function Track(view: map<string, int>, r: Request): map<string, int> {
    match r
    case Subscribe(channel, id, _) => view[channel := id]
    case Unsubscribe(channel, _, _) => view - {channel}
    case _ => view
  }

  /** The request fits a server that holds these subscriptions. */
  predicate Fits(view: map<string, int>, r: Request) {
    match r
    case Subscribe(channel, id, _) => channel !in view && 0 <= id && forall ch | ch in view :: view[ch] != id
    case Unsubscribe(channel, id, _) => channel in view && view[channel] == id
    case Send(channel, _) => channel in view
    case _ => true
  }

  lemma TrackIsSane(view: map<string, int>, r: Request)
    requires Sane(view) && Fits(view, r)
    ensures Sane(Track(view, r))
  {
  }

  // ----- The answers -----

  /** The one answer that a request gets when it is not refused. */
  function Reply(r: Request): seq<Frame> {
    match r
    case Connect(_, _) => [CONNECTED]
    case Send(_, _) => []
    case Subscribe(_, _, receipt) => [ReceiptFrame(Some(ToString(receipt)))]
    case Unsubscribe(_, _, receipt) => [ReceiptFrame(Some(ToString(receipt)))]
    case Disconnect(receipt) => [ReceiptFrame(Some(ToString(receipt)))]
  }

  /** When the server answers with ERROR: the login is not to be had, or the
      subscription number is too big for the cache of boxed ints. */
  predicate Refused(t: Tables, r: Request) {
    match r
    case Connect(login, passcode) => !MayConnect(t, login, Some(passcode))
    case Unsubscribe(_, id, _) => id > 127
    case _ => false
  }

  /** The request is carried out and answered once. */
  ghost predicate Served(t: Tables, t': Tables, me: int, r: Request) {
    && t.sent <= t'.sent
    && View(t', me) == Track(View(t, me), r)
    && me in t'.active
    && OwnAnswers(t'.sent, me) == OwnAnswers(t.sent, me) + Reply(r)
    && !ErrorSince(t, t', me)
  }

  /** The request gets an ERROR. */
  ghost predicate TurnedDown(t: Tables, t': Tables, me: int) {
    t.sent <= t'.sent && ErrorSince(t, t', me)
  }

  /** When the request of a connection that is there gets an ERROR, whatever it
      is subscribed to. */
  predicate Upset(t: Tables, me: int, r: Request) {
    var view := View(t, me);
    match r
    case Connect(login, passcode) => !MayConnect(t, login, Some(passcode))
    case Subscribe(channel, _, _) => channel in view
    case Unsubscribe(_, id, _) => forall ch | ch in view :: !SameBox(view[ch], id)
    case Send(channel, _) => channel !in view || view[channel] == -1
    case Disconnect(_) => false
  }

  /** What a request does to the subscriptions of its connection. */
  function Moved(t: Tables, me: int, r: Request, o: Orders): map<string, int> {
    var view := View(t, me);
    match r
    case Subscribe(channel, id, _) => if channel in view then view else view[channel := id]
    case Unsubscribe(_, id, _) =>
      (match ChannelWith(view, id, o.channels) case None => view case Some(ch) => view - {ch})
    case _ => view
  }

  /** The verdict on a request whose text has come whole. */
  lemma RequestVerdict(t: Tables, me: int, r: Request, o: Orders)
    requires OrdersFit(t, o) && Sendable(r)
    ensures var v := TextVerdict(t, me, WireText(r), o);
            if me in t.active then
              && v.view == Moved(t, me, r, o)
              && (HasError(v.answers) <==> Upset(t, me, r))
              && (!Upset(t, me, r) ==> v.answers == Reply(r))
              && (v.throws <==> !Upset(t, me, r) && Throws(t, r, o))
            else v == Verdict(View(t, me), [], true)
  {
    hide WireText, JavaParse, OrdersFit;
    RequestArrives(r);
    hide Sendable;
    CommandsDiffer(r);
    if me in t.active {
      match r
      case Connect(_, _) => ConnectIs(t, me, r);
      case Subscribe(_, _, _) => SubscribeIs(t, me, r);
      case Unsubscribe(_, _, _) => UnsubscribeIs(t, me, r, o);
      case Send(_, _) => SendIs(t, me, r);
      case Disconnect(_) => DisconnectIs(r);
      hide ConnectVerdict, SubscribeVerdict, UnsubscribeVerdict, SendVerdict, Arrived, Upset, Moved, HasError, Reply,
           View;
    } else {
      hide View, Upset, Moved, Arrived;
    }
  }

  ghost predicate Fitting(t: Tables, me: int, r: Request, v: Verdict, view: map<string, int>, throws: bool) {
    && v.view == view
    && (HasError(v.answers) <==> Upset(t, me, r))
    && (!Upset(t, me, r) ==> v.answers == Reply(r))
    && (v.throws <==> !Upset(t, me, r) && throws)
  }

  lemma ConnectIs(t: Tables, me: int, r: Request)
    requires r.Connect?
    ensures Fitting(t, me, r, ConnectVerdict(t, View(t, me), Arrived(r)), View(t, me), false)
  {
    AnswerNamesDiffer();
    OneAnswer(TAKEN);
    OneAnswer(WRONG);
    OneAnswer(CONNECTED);
    assert Header(Arrived(r), "login") == Some(r.login) && Header(Arrived(r), "passcode") == Some(r.passcode);
    hide View, HasError, Arrived, Header;
  }

  lemma SubscribeIs(t: Tables, me: int, r: Request)
    requires r.Subscribe? && IsInt(r.id)
    ensures Fitting(t, me, r, SubscribeVerdict(View(t, me), Arrived(r)),
                    if r.channel in View(t, me) then View(t, me) else View(t, me)[r.channel := r.id], false)
  {
    AnswerNamesDiffer();
    var f := Arrived(r);
    assert Header(f, "id") == Some(ToString(r.id)) && Header(f, "destination") == Some(r.channel);
    assert Header(f, "receipt") == Some(ToString(r.receipt));
    ReadBack(r.id);
    OneAnswer(AskedReceipt(f));
    OneAnswer(Joined(f, r.channel));
    hide View, HasError, Arrived, Header, ToString, ParseInt;
  }

  lemma UnsubscribeIs(t: Tables, me: int, r: Request, o: Orders)
    requires r.Unsubscribe? && IsInt(r.id) && OrdersFit(t, o)
    ensures Fitting(t, me, r, UnsubscribeVerdict(View(t, me), Arrived(r), o), Moved(t, me, r, o), false)
  {
    AnswerNamesDiffer();
    var f := Arrived(r);
    assert Header(f, "id") == Some(ToString(r.id)) && Header(f, "receipt") == Some(ToString(r.receipt));
    ReadBack(r.id);
    OneAnswer(AskedReceipt(f));
    OneAnswer(NotUnder(f));
    NoSuchBox(View(t, me), r.id, o.channels);
    assert forall ch | ch in View(t, me) :: ch in o.channels;
    hide View, HasError, Arrived, Header, ToString, ParseInt, ChannelWith;
  }

  lemma SendIs(t: Tables, me: int, r: Request)
    requires r.Send?
    ensures Fitting(t, me, r, SendVerdict(t, View(t, me), Arrived(r)), View(t, me), HasNull(t, r.channel))
  {
    AnswerNamesDiffer();
    OneAnswer(NotJoined(r.channel));
    assert Header(Arrived(r), "destination") == Some(r.channel);
    hide View, HasError, Arrived, Header, HasNull;
  }

  lemma DisconnectIs(r: Request)
    requires r.Disconnect?
    ensures [AskedReceipt(Arrived(r))] == Reply(r) && !HasError(Reply(r))
  {
    AnswerNamesDiffer();
    assert Header(Arrived(r), "receipt") == Some(ToString(r.receipt));
    OneAnswer(AskedReceipt(Arrived(r)));
  }

  /** What makes the call for a request throw: a null key on the channel of a
      SEND, or one that disconnect removes before the end of a channel. */
  predicate Throws(t: Tables, r: Request, o: Orders)
    requires OrdersFit(t, o)
  {
    match r
    case Send(channel, _) => HasNull(t, channel)
    case Disconnect(_) => DropFails(t, o)
    case _ => false
  }

  /** While no connection is being accepted disconnect looks up null, and
      otherwise a handler that nobody has subscribed. */
  lemma DropFailsIff(t: Tables, o: Orders, accepting: bool)
    requires TablesInv(t, accepting) && OrdersFit(t, o)
    ensures DropFails(t, o) <==> !accepting && exists ch | ch in t.channels :: BeforeLast(Null, o.subscribers[ch])
  {
    assert Lookup(t, t.counter) == if accepting then Conn(t.counter) else Null;
    if accepting {
      forall ch | ch in t.channels
        ensures !BeforeLast(Conn(t.counter), o.subscribers[ch])
      {
        assert Conn(t.counter) in t.channels[ch] ==> Known(Conn(t.counter), t.counter);
        assert Conn(t.counter) !in o.subscribers[ch];
      }
    }
  }

  /** The call for a request is the branch of its command. */
  lemma RequestIsCalled(w: World, me: int, r: Request, o: Orders)
    requires me in w.protos && OrdersFit(w.tables, o) && Sendable(r)
    ensures var s, t := Process(me, WireText(r), o), w.tables;
            var p := w.protos[me].(connectionID := me, shouldTerminate := r.Disconnect?);
            && Enabled(w, s)
            && Called(w, s) ==
               match r
               case Connect(_, _) => OnConnect(t, p, Arrived(r), o)
               case Subscribe(_, _, _) => OnSubscribe(t, p, Arrived(r), o)
               case Unsubscribe(_, _, _) => OnUnsubscribe(t, p, Arrived(r), o)
               case Send(_, _) => OnSend(t, p, Arrived(r), o)
               case Disconnect(_) => OnDisconnect(t, p, Arrived(r), o)
  {
    RequestArrives(r);
    CommandsDiffer(r);
    hide OnConnect, OnDisconnect, OnUnsubscribe, OnSubscribe, OnSend, JavaParse, WireText, OrdersFit, Sendable;
  }

  /** A SEND of a subscriber is accepted. */
  lemma SubscriberIsAccepted(w: World, me: int, r: Request, o: Orders)
    requires me in w.protos && OrdersFit(w.tables, o) && Sendable(r) && r.Send?
    requires Lookup(w.tables, me) == Conn(me) && r.channel in View(w.tables, me) && 0 <= View(w.tables, me)[r.channel]
    ensures AcceptedOn(w, Process(me, WireText(r), o)) == Some(r.channel)
  {
    hide WireText, JavaParse, OrdersFit;
    RequestArrives(r);
    CommandsDiffer(r);
    assert Header(Arrived(r), "destination") == Some(r.channel);
  }

  /** A request that fits the server's view of its connection is answered with
      ERROR exactly when it is refused; otherwise it is carried out and answered
      once.  When the call throws is exact too. */
  lemma RequestIsServed(w: World, me: int, r: Request, o: Orders)
    requires Inv(w) && me in w.protos && me in w.tables.active && OrdersFit(w.tables, o)
    requires Sendable(r) && Sane(View(w.tables, me)) && Fits(View(w.tables, me), r)
    ensures var s, t := Process(me, WireText(r), o), w.tables;
            && Enabled(w, s)
            && (if Refused(t, r) then TurnedDown(t, Called(w, s).tables, me) else Served(t, Called(w, s).tables, me, r))
            && (Called(w, s).thrown.Some? <==> Throws(t, r, o))
  {
    var t := w.tables;
    hide Called, WireText, OrdersFit, Throws, TextVerdict, Sendable, View, Reply, HasError, Inv;
    RequestVerdict(t, me, r, o);
    FittingIsUpset(t, me, r, o);
    hide Upset, Refused, Moved, Fits, Sane, Track;
    CallGives(w, me, WireText(r), o);
    GivesError(t, Called(w, Process(me, WireText(r), o)), me, TextVerdict(t, me, WireText(r), o));
    hide ErrorSince, OwnAnswers;
  }

  /** For a request that fits, to be upset is to be refused. */
  lemma FittingIsUpset(t: Tables, me: int, r: Request, o: Orders)
    requires OrdersFit(t, o) && Sane(View(t, me)) && Fits(View(t, me), r)
    ensures Upset(t, me, r) <==> Refused(t, r)
    ensures Refused(t, r) ==> !Throws(t, r, o)
    ensures Upset(t, me, r) ==> Moved(t, me, r, o) == View(t, me)
    ensures !Upset(t, me, r) ==> Moved(t, me, r, o) == Track(View(t, me), r)
  {
    var view := View(t, me);
    if r.Unsubscribe? {
      NoSuchBox(view, r.id, o.channels);
      assert forall ch | ch in view :: ch in o.channels;
      assert view[r.channel] == r.id && SameBox(r.id, r.id) == (r.id <= 127);
      hide View, ChannelWith;
    }
    hide View;
  }

  lemma CommandsDiffer(r: Request)
    ensures var c := FrameOf(r).command;
            && (c == "CONNECT" <==> r.Connect?) && (c == "SUBSCRIBE" <==> r.Subscribe?)
            && (c == "UNSUBSCRIBE" <==> r.Unsubscribe?) && (c == "SEND" <==> r.Send?)
            && (c == "DISCONNECT" <==> r.Disconnect?)
  {
    var a, b, c, d, e := "CONNECT", "SUBSCRIBE", "UNSUBSCRIBE", "SEND", "DISCONNECT";
    assert |a| == 7 && |b| == 9 && |c| == 11 && |d| == 4 && |e| == 10;
  }
}
