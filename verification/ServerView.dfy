/** The server as one connection sees it: its subscriptions, and the frames it
    is sent. */
module ServerView {
  import opened Text
  import opened StompFrames
  import opened ConnectionTables
  import opened ServerProtocol
  import opened ServerRuns
  import opened SentFrames

  /** The subscription numbers of a connection by channel. */
  function View(t: Tables, me: int): map<string, int> {
    map ch | ch in t.channels && Conn(me) in t.channels[ch] :: t.channels[ch][Conn(me)]
  }

  /** All frames for a connection, in the order in which they were handed over. */
  function Inbox(sent: seq<Delivery>, me: int): seq<Frame> {
    if sent == [] then []
    else
      var n := |sent| - 1;
      Inbox(sent[..n], me) + if sent[n].to == me then [sent[n].frame] else []
  }

  function Replied(frames: seq<Frame>): seq<Frame> {
    if frames == [] then []
    else
      var n := |frames| - 1;
      Replied(frames[..n]) + if frames[n].command == "MESSAGE" then [] else [frames[n]]
  }

  /** The answers among them: all but the broadcasts. */
  function OwnAnswers(sent: seq<Delivery>, me: int): seq<Frame> {
    Replied(Inbox(sent, me))
  }

  lemma InboxSnoc(sent: seq<Delivery>, d: Delivery, me: int)
    ensures Inbox(sent + [d], me) == Inbox(sent, me) + if d.to == me then [d.frame] else []
    ensures OwnAnswers(sent + [d], me) ==
            OwnAnswers(sent, me) + if d.to == me && d.frame.command != "MESSAGE" then [d.frame] else []
  {
    assert (sent + [d])[..|sent|] == sent;
    var frames := Inbox(sent, me);
    assert frames + [] == frames;
    assert (frames + [d.frame])[..|frames|] == frames;
    assert Replied(frames) + [] == Replied(frames);
  }

  lemma {:induction false} InboxGrows(sent: seq<Delivery>, more: seq<Delivery>, me: int)
    requires sent <= more
    ensures Inbox(sent, me) <= Inbox(more, me)
    ensures OwnAnswers(sent, me) <= OwnAnswers(more, me)
    decreases |more|
  {
    if sent != more {
      var n := |more| - 1;
      InboxGrows(sent, more[..n], me);
      assert more == more[..n] + [more[n]];
      InboxSnoc(more[..n], more[n], me);
    }
  }

  lemma {:induction false} InboxMember(sent: seq<Delivery>, me: int, i: nat) returns (k: nat)
    requires i < |Inbox(sent, me)|
    ensures k < |sent| && sent[k] == Delivery(me, Inbox(sent, me)[i])
    ensures Inbox(sent[..k], me) == Inbox(sent, me)[..i]
  {
    var n := |sent| - 1;
    if i < |Inbox(sent[..n], me)| {
      k := InboxMember(sent[..n], me, i);
      assert sent[..n][..k] == sent[..k];
    } else {
      k := n;
    }
  }

  // ----- Steps of others -----

  /** A message on a channel that the connection is subscribed to. */
  predicate OnOwnChannel(t: Tables, f: Frame, me: int) {
    && f.command == "MESSAGE"
    && "destination" in f.headers && f.headers["destination"] in View(t, me)
  }

  /** Nothing happens to this connection but broadcasts to its channels. */
  ghost predicate Aloof(t: Tables, t': Tables, me: int) {
    && View(t', me) == View(t, me)
    && (me in t'.active <==> me in t.active)
    && t.sent <= t'.sent
    && forall i | |t.sent| <= i < |t'.sent| && t'.sent[i].to == me ::
         OnOwnChannel(t, t'.sent[i].frame, me)
  }

  ghost predicate Apart(t: Tables, p: Proto, me: int) {
    && p.connectionID != me
    && Lookup(t, p.connectionID) != Conn(me)
    && (Lookup(t, t.counter) != Conn(me) || View(t, me) == map[])
  }

  lemma DropsKeepView(t: Tables, t': Tables, target: Handler, me: int)
    requires OnlyDropped(t, t', target) && (target != Conn(me) || View(t, me) == map[])
    ensures View(t', me) == View(t, me)
  {
    forall ch | ch in t.channels
      ensures Conn(me) in t'.channels[ch] <==> Conn(me) in t.channels[ch]
      ensures Conn(me) in t.channels[ch] ==> t'.channels[ch][Conn(me)] == t.channels[ch][Conn(me)]
    {
      assert Conn(me) in t.channels[ch] ==> ch in View(t, me);
    }
  }

  lemma AnswerAloof(t: Tables, p: Proto, frame: Frame, o: Orders, me: int)
    requires OrdersFit(t, o) && Apart(t, p, me)
    ensures Aloof(t, Answer(t, p, frame).tables, me)
    ensures Aloof(t, Rejected(t, p, frame, o).tables, me)
    ensures Apart(Answer(t, p, frame).tables, p, me)
  {
    var one := Answer(t, p, frame).tables;
    if Answer(t, p, frame).thrown.None? {
      var closed := one.(closed := one.closed + {p.connectionID});
      var out := Disconnected(closed, p.connectionID, o).0;
      DisconnectedMeans(closed, p.connectionID, o);
      DropsKeepView(closed.(loggedIn := out.loggedIn), out, Lookup(t, t.counter), me);
    }
  }

  lemma AnswerTwiceAloof(t: Tables, p: Proto, frame: Frame, o: Orders, me: int)
    requires OrdersFit(t, o) && Apart(t, p, me)
    ensures OrdersFit(Answer(t, p, frame).tables, o)
    ensures Aloof(t, Answer(t, p, frame).tables, me)
    ensures Aloof(t, Rejected(Answer(t, p, frame).tables, p, frame, o).tables, me)
  {
    AnswerAloof(t, p, frame, o, me);
    AnswerAloof(Answer(t, p, frame).tables, p, frame, o, me);
  }

  lemma ConnectedKeepsView(t: Tables, login: string, passcode: Option<string>, id: int, me: int)
    ensures var (t', r) := Connected(t, login, passcode, id);
            && View(t', me) == View(t, me) && t'.active == t.active && t'.sent == t.sent
            && (r == Ok(false) ==> t' == t)
  {
  }

  lemma AnswersKeepView(t: Tables, p: Proto, frame: Frame, me: int)
    ensures View(Answer(t, p, frame).tables, me) == View(t, me)
    ensures Answer(t, p, frame).tables.active == t.active
  {
  }

  lemma OnConnectAloof(t: Tables, p: Proto, f: Frame, o: Orders, me: int)
    requires OrdersFit(t, o) && Apart(t, p, me)
    ensures Aloof(t, OnConnect(t, p, f, o).tables, me)
  {
    hide Rejected, OrdersFit, Connected, View;
    if Header(f, "login").Some? {
      var login := Header(f, "login").value;
      if login in t.loggedIn {
        AnswerAloof(t, p, ErrorFrame(map["message" := "User is already connected"]), o, me);
      } else {
        ConnectedKeepsView(t, login, Header(f, "passcode"), p.connectionID, me);
        var (t', r) := Connected(t, login, Header(f, "passcode"), p.connectionID);
        if r == Ok(false) {
          AnswerTwiceAloof(t, p, ErrorFrame(map["message" := "Wrong password"]), o, me);
        } else if r == Ok(true) {
          AnswersKeepView(t', p, CONNECTED, me);
        }
      }
    }
  }

  lemma OnDisconnectAloof(t: Tables, p: Proto, f: Frame, o: Orders, me: int)
    requires OrdersFit(t, o) && Apart(t, p, me)
    ensures Aloof(t, OnDisconnect(t, p, f, o).tables, me)
  {
    var one := Answer(t, p, ReceiptFrame(Header(f, "receipt"))).tables;
    AnswerAloof(t, p, ReceiptFrame(Header(f, "receipt")), o, me);
    var out := Disconnected(one, p.connectionID, o).0;
    DisconnectedMeans(one, p.connectionID, o);
    DropsKeepView(one.(loggedIn := out.loggedIn), out, Lookup(t, t.counter), me);
  }

  lemma UnsubscribedKeepsView(t: Tables, subId: int, h: Handler, order: seq<string>, me: int)
    requires h != Conn(me)
    ensures var (t', done) := Unsubscribed(t, subId, h, order);
            && View(t', me) == View(t, me) && t'.active == t.active && t'.sent == t.sent
            && (!done ==> t' == t)
  {
    var ch := UnsubscribedMeans(t, subId, h, order);
  }

  lemma OnUnsubscribeAloof(t: Tables, p: Proto, f: Frame, o: Orders, me: int)
    requires OrdersFit(t, o) && Apart(t, p, me)
    ensures Aloof(t, OnUnsubscribe(t, p, f, o).tables, me)
  {
    if HeaderNumber(Header(f, "id")).Ok? {
      var h, subId := Lookup(t, p.connectionID), HeaderNumber(Header(f, "id")).value;
      UnsubscribedKeepsView(t, subId, h, o.channels, me);
      var (t', done) := Unsubscribed(t, subId, h, o.channels);
      hide View, Rejected, OrdersFit, Unsubscribed;
      if done {
        AnswersKeepView(t', p, ReceiptFrame(Header(f, "receipt")), me);
      } else {
        AnswerAloof(t, p, ErrorFrame(map[
          "receipt-id" := Printed(Header(f, "receipt")),
          "message" := "The user isn't subscribed with that number: " + Printed(Header(f, "id"))]), o, me);
      }
    }
  }

  lemma SubscribedKeepsView(t: Tables, channel: string, subId: int, h: Handler, me: int)
    requires h != Conn(me)
    ensures var (t', done) := Subscribed(t, channel, subId, h);
            && View(t', me) == View(t, me)
            && t'.active == t.active && t'.sent == t.sent
            && (!done ==> t' == t)
  {
  }

  lemma OnSubscribeAloof(t: Tables, p: Proto, f: Frame, o: Orders, me: int)
    requires OrdersFit(t, o) && Apart(t, p, me)
    ensures Aloof(t, OnSubscribe(t, p, f, o).tables, me)
  {
    if HeaderNumber(Header(f, "id")).Ok? && Header(f, "destination").Some? {
      var channel := Header(f, "destination").value;
      var subId, h := HeaderNumber(Header(f, "id")).value, Lookup(t, p.connectionID);
      SubscribedKeepsView(t, channel, subId, h, me);
      var (t', done) := Subscribed(t, channel, subId, h);
      hide Subscribed, Rejected, View, OrdersFit;
      if !done {
        AnswerAloof(t, p, ErrorFrame(map[
          "receipt-id" := Printed(Header(f, "receipt")),
          "message" := "The user already subscribed to channel: " + channel]), o, me);
      }
    }
  }

  lemma OnSendAloof(t: Tables, p: Proto, f: Frame, o: Orders, me: int)
    requires OrdersFit(t, o) && Apart(t, p, me)
    ensures Aloof(t, OnSend(t, p, f, o).tables, me)
  {
    hide Rejected;
    if "destination" in f.headers {
      var channel := f.headers["destination"];
      var subId := UserSubId(t, channel, p.connectionID);
      if subId == -1 {
        AnswerTwiceAloof(t, p, ErrorFrame(map["message" := "The user isn't subscribed to channel: " + channel]), o, me);
      } else {
        BroadcastAloof(t, channel, o.subscribers[channel], MessageFrame(subId, p.messageID, channel, f.body), me);
      }
    }
  }

  lemma BroadcastAloof(t: Tables, channel: string, order: seq<Handler>, message: Frame, me: int)
    requires channel in t.channels && IsOrder(order, t.channels[channel].Keys) && message.command == "MESSAGE"
    requires "destination" in message.headers && message.headers["destination"] == channel
    ensures Aloof(t, Broadcast(t, order, message).0, me)
  {
    BroadcastReaches(t, order, message);
    DeliveriesAre(Reached(order), message);
    var d := Deliveries(Reached(order), message);
    forall i | 0 <= i < |d| && d[i].to == me
      ensures OnOwnChannel(t, message, me)
    {
      assert order[i] == Conn(me);
    }
  }

  lemma HandledAloof(t: Tables, p: Proto, f: Frame, o: Orders, me: int)
    requires OrdersFit(t, o) && Apart(t, p, me)
    ensures Aloof(t, Handled(t, p, f, o).tables, me)
  {
    var p' := p.(shouldTerminate := f.command == "DISCONNECT");
    assert Apart(t, p', me);
    hide OnConnect, OnDisconnect, OnUnsubscribe, OnSubscribe, OnSend, OrdersFit, Apart;
    OnConnectAloof(t, p', f, o, me);
    OnDisconnectAloof(t, p', f, o, me);
    OnUnsubscribeAloof(t, p', f, o, me);
    OnSubscribeAloof(t, p', f, o, me);
    OnSendAloof(t, p', f, o, me);
  }

  /** Other connections cannot touch the subscriptions of this one. */
  lemma OthersAreAloof(w: World, s: Step, me: int)
    requires Inv(w) && 0 <= me && (s.Process? ==> s.conn != me)
    requires me < w.tables.counter || View(w.tables, me) == map[]
    ensures s.Process? || me < w.tables.counter ==> Aloof(w.tables, Apply(w, s).tables, me)
    ensures View(Apply(w, s).tables, me) == View(w.tables, me)
    ensures !s.Process? ==> Apply(w, s).tables.sent == w.tables.sent
  {
    hide Handled, JavaParse;
    if Enabled(w, s) && s.Process? && JavaParse(s.message).Ok? {
      HandledAloof(w.tables, w.protos[s.conn].(connectionID := s.conn), JavaParse(s.message).value, s.orders, me);
    }
  }

  /** A connection that has not been counted yet has no subscriptions and has
      been sent nothing. */
  lemma {:induction false} NewcomersAreFresh(steps: seq<Step>, n: nat, me: int)
    requires n <= |steps| && At(steps, n).tables.counter <= me
    ensures View(At(steps, n).tables, me) == map[]
    ensures Inbox(At(steps, n).tables.sent, me) == []
  {
    hide Called;
    RunKeeps(steps, n);
    if n > 0 {
      var w, s := At(steps, n - 1), steps[n - 1];
      RunKeeps(steps, n - 1);
      CounterGrows(w, s);
      NewcomersAreFresh(steps, n - 1, me);
      if s.Process? && s.conn == me {
        assert !Enabled(w, s);
      } else {
        OthersAreAloof(w, s, me);
        NothingNew(w.tables.sent, Apply(w, s).tables.sent, me);
      }
    }
  }

  lemma CounterGrows(w: World, s: Step)
    requires Inv(w)
    ensures w.tables.counter <= Apply(w, s).tables.counter
  {
    hide Processed;
    if Enabled(w, s) && s.Process? {
      ProcessKeeps(w.tables, w.protos[s.conn].(connectionID := s.conn), s.message, s.orders, w.accepting);
    }
  }

  lemma {:induction false} NothingNew(sent: seq<Delivery>, more: seq<Delivery>, me: int)
    requires sent <= more && forall i | |sent| <= i < |more| :: more[i].to != me
    ensures Inbox(more, me) == Inbox(sent, me)
    decreases |more|
  {
    if |more| > |sent| {
      NothingNew(sent, more[..|more| - 1], me);
    } else {
      assert more == sent;
    }
  }

  /** Broadcasts are no answers. */
  lemma {:induction false} NoNewAnswers(sent: seq<Delivery>, more: seq<Delivery>, me: int)
    requires sent <= more && forall i | |sent| <= i < |more| && more[i].to == me :: more[i].frame.command == "MESSAGE"
    ensures OwnAnswers(more, me) == OwnAnswers(sent, me)
    decreases |more|
  {
    if |more| > |sent| {
      var n := |more| - 1;
      NoNewAnswers(sent, more[..n], me);
      assert more == more[..n] + [more[n]];
      InboxSnoc(more[..n], more[n], me);
    } else {
      assert more == sent;
    }
  }
}
