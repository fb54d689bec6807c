/** What a call leaves behind when its connection is expelled or disconnects, and
    that no other call leaves anything of the kind. */
module Leaving {
  import opened Text
  import opened StompFrames
  import opened ConnectionTables
  import opened ServerProtocol
  import opened ServerRuns
  import opened ServerView
  import opened LoginTables
  import opened ClientSession
  import opened OneCall
  import opened OwnRequests
  import opened Shortcomings

  /** Some channel iterates the handler that disconnect looks up before its last
      key. */
  predicate Stumbles(t: Tables, o: Orders)
    requires OrdersFit(t, o)
  {
    exists ch | ch in t.channels :: BeforeLast(Lookup(t, t.counter), o.subscribers[ch])
  }

  /** What disconnect does to the tables: one login of the connection is given up,
      and the handler under the counter goes from every channel up to the first
      on which the iterator fails. */
  ghost predicate Disconnects(t: Tables, t': Tables, id: int, o: Orders)
    requires OrdersFit(t, o)
  {
    && GivesUp(t.loggedIn, t'.loggedIn, id, o.logins)
    && DroppedUpToFailure(t.(loggedIn := t'.loggedIn, closed := t'.closed, active := t'.active, sent := t'.sent), t',
                          Lookup(t, t.counter), o.channels, o)
  }

  /** What an ERROR leaves: a closed channel, the work of disconnect, and, unless
      its iterator has failed, a connection that is removed and terminates. */
  ghost predicate IsExpelled(t: Tables, t': Tables, terminates: bool, id: int, o: Orders)
    requires OrdersFit(t, o)
  {
    && Disconnects(t, t', id, o)
    && t'.closed == t.closed + {id}
    && t'.active == (if Stumbles(t, o) then t.active else t.active - {id})
    && (terminates <==> !Stumbles(t, o))
  }

  lemma RejectedExactly(t: Tables, p: Proto, frame: Frame, o: Orders)
    requires Stands(t, p, o) && !p.shouldTerminate
    ensures var e := Rejected(t, p, frame, o);
            IsExpelled(t, e.tables, e.proto.shouldTerminate, p.connectionID, o) && e.thrown.None?
  {
    var one := t.(sent := t.sent + [Delivery(p.connectionID, frame)]);
    assert Answer(t, p, frame) == Effect(one, p, None);
    var closed := one.(closed := one.closed + {p.connectionID});
    DisconnectedExactly(closed, p.connectionID, o);
    assert DropFails(closed, o) <==> Stumbles(t, o);
    hide Disconnected, GivesUp, BeforeLast, IsOrder;
    var out := Disconnected(closed, p.connectionID, o).0;
    DroppedAgain(closed.(loggedIn := out.loggedIn), out, t, Rejected(t, p, frame, o).tables, Lookup(t, t.counter), o);
    hide DropFails, Stumbles, DroppedUpToFailure;
  }

  /** Which channels lose a key depends on nothing but the channels. */
  lemma DroppedAgain(u: Tables, u': Tables, t: Tables, t': Tables, target: Handler, o: Orders)
    requires OrdersFit(t, o) && t.channels == u.channels && t'.channels == u'.channels
    requires u'.users == u.users == t.users == t'.users && u'.counter == u.counter == t.counter == t'.counter
    requires DroppedUpToFailure(u, u', target, o.channels, o)
    ensures DroppedUpToFailure(
              t.(loggedIn := t'.loggedIn, closed := t'.closed, active := t'.active, sent := t'.sent), t',
              target, o.channels, o)
  {
    hide GotTo, IsOrder;
  }

  /** The same from a state in which more has been sent. */
  lemma ExpelledFrom(t: Tables, t0: Tables, t': Tables, terminates: bool, id: int, o: Orders)
    requires OrdersFit(t, o) && t0 == t.(sent := t0.sent) && OrdersFit(t0, o)
    requires IsExpelled(t0, t', terminates, id, o)
    ensures IsExpelled(t, t', terminates, id, o)
  {
    assert t0.(loggedIn := t'.loggedIn, closed := t'.closed, active := t'.active, sent := t'.sent) ==
           t.(loggedIn := t'.loggedIn, closed := t'.closed, active := t'.active, sent := t'.sent);
    hide GivesUp, DroppedUpToFailure, BeforeLast, OrdersFit;
    assert Stumbles(t0, o) <==> Stumbles(t, o);
  }

  lemma RejectedTwiceExactly(t: Tables, p: Proto, frame: Frame, o: Orders)
    requires Stands(t, p, o) && !p.shouldTerminate
    ensures Answer(t, p, frame).thrown.None? && Answer(t, p, frame).proto == p
    ensures OrdersFit(Answer(t, p, frame).tables, o)
    ensures var e := Rejected(Answer(t, p, frame).tables, p, frame, o);
            IsExpelled(t, e.tables, e.proto.shouldTerminate, p.connectionID, o) && e.thrown.None?
  {
    var one := t.(sent := t.sent + [Delivery(p.connectionID, frame)]);
    assert Answer(t, p, frame) == Effect(one, p, None);
    assert Stands(one, p, o);
    hide Stands, Answer, Rejected;
    RejectedExactly(one, p, frame, o);
    hide IsExpelled;
    var e := Rejected(one, p, frame, o);
    ExpelledFrom(t, one, e.tables, e.proto.shouldTerminate, p.connectionID, o);
  }

  // ----- Frames of a connection that is there -----

  /** Nothing of the kind. */
  predicate Quiet(t: Tables, e: Effect) {
    && e.tables.closed == t.closed && e.tables.active == t.active && e.tables.counter == t.counter
    && !e.proto.shouldTerminate
  }

  predicate SameLogins(t: Tables, t': Tables) {
    t'.loggedIn == t.loggedIn && t'.users == t.users
  }

  lemma ConnectLeaves(t: Tables, p: Proto, f: Frame, o: Orders)
    requires Stands(t, p, o) && !p.shouldTerminate && f.command == "CONNECT"
    ensures var e := OnConnect(t, p, f, o);
            if FrameUpset(t, View(t, p.connectionID), f)
            then IsExpelled(t, e.tables, e.proto.shouldTerminate, p.connectionID, o) && e.thrown.None?
            else Quiet(t, e)
  {
    if Header(f, "login").Some? {
      var login := Header(f, "login").value;
      if login in t.loggedIn {
        RejectedExactly(t, p, TAKEN, o);
      } else if login in t.users && Header(f, "passcode") != Some(t.users[login]) {
        RejectedTwiceExactly(t, p, WRONG, o);
      }
    }
    hide Rejected, View, IsExpelled, HeaderNumber, OrdersFit;
  }

  lemma UnsubscribeLeaves(t: Tables, p: Proto, f: Frame, o: Orders)
    requires Stands(t, p, o) && !p.shouldTerminate && f.command == "UNSUBSCRIBE"
    ensures var e := OnUnsubscribe(t, p, f, o);
            if FrameUpset(t, View(t, p.connectionID), f)
            then IsExpelled(t, e.tables, e.proto.shouldTerminate, p.connectionID, o) && e.thrown.None?
            else Quiet(t, e) && SameLogins(t, e.tables)
  {
    hide Rejected, View, IsExpelled, HeaderNumber, Unsubscribed, ChannelWith;
    if HeaderNumber(Header(f, "id")).Ok? {
      var subId := HeaderNumber(Header(f, "id")).value;
      UnsubscribedIs(t, subId, p.connectionID, o.channels);
      NoSuchBox(View(t, p.connectionID), subId, o.channels);
      ViewIsOfChannels(t, p.connectionID);
      RejectedExactly(t, p, NotUnder(f), o);
    }
  }

  lemma ViewIsOfChannels(t: Tables, me: int)
    ensures forall ch | ch in View(t, me) :: ch in t.channels
  {
  }

  lemma SubscribeLeaves(t: Tables, p: Proto, f: Frame, o: Orders)
    requires Stands(t, p, o) && !p.shouldTerminate && f.command == "SUBSCRIBE"
    ensures var e := OnSubscribe(t, p, f, o);
            if FrameUpset(t, View(t, p.connectionID), f)
            then IsExpelled(t, e.tables, e.proto.shouldTerminate, p.connectionID, o) && e.thrown.None?
            else Quiet(t, e) && SameLogins(t, e.tables)
  {
    hide Rejected, View, IsExpelled, HeaderNumber, Subscribed;
    if HeaderNumber(Header(f, "id")).Ok? && Header(f, "destination").Some? {
      var channel := Header(f, "destination").value;
      SubscribedIs(t, channel, HeaderNumber(Header(f, "id")).value, p.connectionID);
      RejectedExactly(t, p, Joined(f, channel), o);
    }
  }

  lemma SendLeaves(t: Tables, p: Proto, f: Frame, o: Orders)
    requires Stands(t, p, o) && !p.shouldTerminate && f.command == "SEND"
    ensures var e := OnSend(t, p, f, o);
            if FrameUpset(t, View(t, p.connectionID), f)
            then IsExpelled(t, e.tables, e.proto.shouldTerminate, p.connectionID, o) && e.thrown.None?
            else Quiet(t, e) && SameLogins(t, e.tables)
  {
    hide Rejected, View, IsExpelled, HeaderNumber;
    if Header(f, "destination").Some? {
      var channel := Header(f, "destination").value;
      SubIdIs(t, channel, p.connectionID);
      var subId := UserSubId(t, channel, p.connectionID);
      if subId == -1 {
        RejectedTwiceExactly(t, p, NotJoined(channel), o);
      } else {
        BroadcastReaches(t, o.subscribers[channel], MessageFrame(subId, p.messageID, channel, f.body));
      }
      hide UserSubId, Broadcast;
    }
  }

  lemma DisconnectLeaves(t: Tables, p: Proto, f: Frame, o: Orders)
    requires Stands(t, p, o)
    ensures var e := OnDisconnect(t, p, f, o);
            && Disconnects(t, e.tables, p.connectionID, o)
            && e.tables.closed == t.closed && e.tables.active == t.active && e.proto == p
            && (e.thrown.Some? <==> Stumbles(t, o))
  {
    var one := t.(sent := t.sent + [Delivery(p.connectionID, AskedReceipt(f))]);
    assert Answer(t, p, AskedReceipt(f)) == Effect(one, p, None);
    DisconnectedExactly(one, p.connectionID, o);
    assert DropFails(one, o) <==> Stumbles(t, o);
    hide Disconnected, GivesUp, BeforeLast, IsOrder;
    var out := Disconnected(one, p.connectionID, o).0;
    DroppedAgain(one.(loggedIn := out.loggedIn), out, t, out, Lookup(t, t.counter), o);
    hide DropFails, Stumbles, DroppedUpToFailure;
  }

  /** A frame of a connection that is there. */
  lemma HandledLeaves(t: Tables, p: Proto, f: Frame, o: Orders)
    requires Stands(t, p, o)
    ensures var e := Handled(t, p, f, o);
            if FrameUpset(t, View(t, p.connectionID), f) then
              IsExpelled(t, e.tables, e.proto.shouldTerminate, p.connectionID, o) && e.thrown.None?
            else if f.command == "DISCONNECT" then
              && Disconnects(t, e.tables, p.connectionID, o)
              && e.tables.closed == t.closed && e.tables.active == t.active && e.proto.shouldTerminate
              && (e.thrown.Some? <==> Stumbles(t, o))
            else Quiet(t, e) && (f.command != "CONNECT" ==> SameLogins(t, e.tables))
  {
    var p' := p.(shouldTerminate := f.command == "DISCONNECT");
    CommandNamesDiffer();
    assert Stands(t, p', o);
    hide OnConnect, OnDisconnect, OnUnsubscribe, OnSubscribe, OnSend, Stands, View, IsExpelled, HeaderNumber,
         Disconnects, Stumbles, OrdersFit;
    if f.command == "CONNECT" {
      ConnectLeaves(t, p', f, o);
    } else if f.command == "DISCONNECT" {
      DisconnectLeaves(t, p', f, o);
    } else if f.command == "UNSUBSCRIBE" {
      UnsubscribeLeaves(t, p', f, o);
    } else if f.command == "SUBSCRIBE" {
      SubscribeLeaves(t, p', f, o);
    } else if f.command == "SEND" {
      SendLeaves(t, p', f, o);
    }
  }

  /** A frame of a connection that has been removed. */
  lemma GoneLeaves(t: Tables, p: Proto, f: Frame, o: Orders)
    requires OrdersFit(t, o) && Lookup(t, p.connectionID) == Null
    ensures var e := Handled(t, p, f, o);
            && e.tables.closed == t.closed && e.tables.active == t.active && e.tables.counter == t.counter
            && e.proto.shouldTerminate == (f.command == "DISCONNECT")
            && (f.command != "CONNECT" ==> SameLogins(t, e.tables))
  {
    var p' := p.(shouldTerminate := f.command == "DISCONNECT");
    CommandNamesDiffer();
    GoneConnect(t, p', f, o);
    GoneUnsubscribe(t, p', f, o);
    GoneSubscribe(t, p', f, o);
    GoneSend(t, p', f, o);
    assert OnDisconnect(t, p', f, o) == Effect(t, p', Some(NullPointer));
    hide OnConnect, OnDisconnect, OnUnsubscribe, OnSubscribe, OnSend, OrdersFit;
  }

  predicate Same(t: Tables, p: Proto, e: Effect) {
    && e.tables.closed == t.closed && e.tables.active == t.active && e.tables.counter == t.counter
    && e.proto.shouldTerminate == p.shouldTerminate
  }

  lemma GoneConnect(t: Tables, p: Proto, f: Frame, o: Orders)
    requires OrdersFit(t, o) && Lookup(t, p.connectionID) == Null
    ensures Same(t, p, OnConnect(t, p, f, o))
  {
    hide OrdersFit;
  }

  lemma GoneUnsubscribe(t: Tables, p: Proto, f: Frame, o: Orders)
    requires OrdersFit(t, o) && Lookup(t, p.connectionID) == Null
    ensures Same(t, p, OnUnsubscribe(t, p, f, o)) && SameLogins(t, OnUnsubscribe(t, p, f, o).tables)
  {
    hide OrdersFit, HeaderNumber;
    if HeaderNumber(Header(f, "id")).Ok? {
      var ch := UnsubscribedMeans(t, HeaderNumber(Header(f, "id")).value, Null, o.channels);
      hide Unsubscribed;
    }
  }

  lemma GoneSubscribe(t: Tables, p: Proto, f: Frame, o: Orders)
    requires OrdersFit(t, o) && Lookup(t, p.connectionID) == Null
    ensures Same(t, p, OnSubscribe(t, p, f, o)) && SameLogins(t, OnSubscribe(t, p, f, o).tables)
  {
    hide OrdersFit, HeaderNumber;
  }

  lemma GoneSend(t: Tables, p: Proto, f: Frame, o: Orders)
    requires OrdersFit(t, o) && Lookup(t, p.connectionID) == Null
    ensures Same(t, p, OnSend(t, p, f, o)) && SameLogins(t, OnSend(t, p, f, o).tables)
  {
    if "destination" in f.headers && UserSubId(t, f.headers["destination"], p.connectionID) != -1 {
      var channel := f.headers["destination"];
      var subId := UserSubId(t, channel, p.connectionID);
      BroadcastReaches(t, o.subscribers[channel], MessageFrame(subId, p.messageID, channel, f.body));
    }
    hide Broadcast, MessageFrame, UserSubId;
  }

  // ----- Steps of the server -----

  /** The frame of the call, when its text is one. */
  function FrameIn(s: Step): Option<Frame>
    requires s.Process?
  {
    match JavaParse(s.message)
    case Ok(f) => Some(f)
    case Err(_) => None
  }

  lemma CallLeaves(w: World, s: Step)
    requires Inv(w) && Enabled(w, s) && s.Process? && JavaParse(s.message).Ok?
    ensures var p := w.protos[s.conn].(connectionID := s.conn);
            && Called(w, s) == Handled(w.tables, p, JavaParse(s.message).value, s.orders)
            && OrdersFit(w.tables, s.orders)
            && (s.conn in w.tables.active ==> Stands(w.tables, p, s.orders))
            && (s.conn !in w.tables.active ==> Lookup(w.tables, s.conn) == Null)
  {
    hide JavaParse, Handled, OrdersFit;
  }

  lemma StepUpset(w: World, s: Step)
    requires Inv(w) && Enabled(w, s) && s.Process?
    ensures ErrorSince(w.tables, Apply(w, s).tables, s.conn) <==> TextUpset(w.tables, s.conn, s.message)
    ensures OrdersFit(w.tables, s.orders) && s.conn in Apply(w, s).protos
  {
    hide TextVerdict, TextUpset, HasError, ErrorSince, View, OwnAnswers, Processed, Gives;
    CallGives(w, s.conn, s.message, s.orders);
    var v := TextVerdict(w.tables, s.conn, s.message, s.orders);
    GivesError(w.tables, Called(w, s), s.conn, v);
    UpsetIff(w.tables, s.conn, s.message, s.orders);
  }

  /** Whoever is sent an ERROR in its own step is expelled. */
  lemma ErrorExpels(w: World, s: Step)
    requires Inv(w) && Enabled(w, s) && s.Process? && ErrorSince(w.tables, Apply(w, s).tables, s.conn)
    ensures OrdersFit(w.tables, s.orders) && s.conn in Apply(w, s).protos
    ensures var w' := Apply(w, s);
            && IsExpelled(w.tables, w'.tables, w'.protos[s.conn].shouldTerminate, s.conn, s.orders)
            && Called(w, s).thrown.None?
  {
    StepUpset(w, s);
    hide JavaParse, FrameUpset, Handled, IsExpelled, ErrorSince, View, OrdersFit, Stumbles, Disconnects, Called;
    CallLeaves(w, s);
    HandledLeaves(w.tables, w.protos[s.conn].(connectionID := s.conn), JavaParse(s.message).value, s.orders);
  }

  /** DISCONNECT of a connection that is there does the work of disconnect, and
      neither closes the channel nor removes the connection. */
  lemma DisconnectDeparts(w: World, s: Step)
    requires Inv(w) && Leaves(w, s)
    ensures OrdersFit(w.tables, s.orders) && s.conn in Apply(w, s).protos
    ensures var w' := Apply(w, s);
            && Disconnects(w.tables, w'.tables, s.conn, s.orders)
            && w'.tables.closed == w.tables.closed && w'.tables.active == w.tables.active
            && w'.protos[s.conn].shouldTerminate
            && (Called(w, s).thrown.Some? <==> Stumbles(w.tables, s.orders))
  {
    hide JavaParse, Handled, View, OrdersFit, Stumbles, Disconnects, IsExpelled, Called;
    CallLeaves(w, s);
    var f := JavaParse(s.message).value;
    NotUpset(w.tables, View(w.tables, s.conn), f);
    HandledLeaves(w.tables, w.protos[s.conn].(connectionID := s.conn), f, s.orders);
  }

  lemma NotUpset(t: Tables, view: map<string, int>, f: Frame)
    requires f.command == "DISCONNECT"
    ensures !FrameUpset(t, view, f)
  {
    CommandNamesDiffer();
  }

  /** No other step closes a channel or removes a connection; logins change in no
      other but a CONNECT; and terminating is up to the last frame alone. */
  lemma OthersStay(w: World, s: Step)
    requires Inv(w) && Enabled(w, s) && s.Process?
    requires !ErrorSince(w.tables, Apply(w, s).tables, s.conn) && !Leaves(w, s)
    ensures s.conn in Apply(w, s).protos
    ensures var w' := Apply(w, s);
            && w'.tables.closed == w.tables.closed && w'.tables.active == w.tables.active
            && w'.tables.counter == w.tables.counter
            && (match FrameIn(s)
                case None =>
                  && SameLogins(w.tables, w'.tables)
                  && w'.protos[s.conn].shouldTerminate == w.protos[s.conn].shouldTerminate
                case Some(f) =>
                  && (f.command != "CONNECT" ==> SameLogins(w.tables, w'.tables))
                  && w'.protos[s.conn].shouldTerminate == (f.command == "DISCONNECT"))
  {
    StepUpset(w, s);
    hide JavaParse, FrameUpset, Handled, IsExpelled, ErrorSince, View, OrdersFit, Stumbles, Disconnects, Inv;
    if JavaParse(s.message).Ok? {
      CallLeaves(w, s);
      var p := w.protos[s.conn].(connectionID := s.conn);
      if s.conn in w.tables.active {
        HandledLeaves(w.tables, p, JavaParse(s.message).value, s.orders);
      } else {
        GoneLeaves(w.tables, p, JavaParse(s.message).value, s.orders);
      }
    }
  }

  // ----- Logins -----

  lemma {:induction false} SomeFirst(loggedIn: map<string, int>, id: int, order: seq<string>, l: string)
    returns (i: nat)
    requires l in order && l in loggedIn && loggedIn[l] == id
    ensures FirstHeld(loggedIn, id, order, i)
    decreases |order|
  {
    i := 0;
    while !(order[i] in loggedIn && loggedIn[order[i]] == id)
      invariant i < |order| && forall j | 0 <= j < i :: order[j] in loggedIn ==> loggedIn[order[j]] != id
      decreases |order| - i
    {
      var k :| 0 <= k < |order| && order[k] == l;
      i := i + 1;
    }
  }

  lemma GivingUpFrees(before: map<string, int>, after: map<string, int>, id: int, order: seq<string>)
    requires GivesUp(before, after, id, order) && IsOrder(order, before.Keys)
    ensures (forall l | l in after :: after[l] != id) <==>
            (forall l, m | l in before && m in before && before[l] == id && before[m] == id :: l == m)
    ensures forall l | l in after :: l in before && after[l] == before[l]
  {
    if l :| l in before && before[l] == id {
      var i := SomeFirst(before, id, order, l);
      assert after == before - {order[i]};
      forall m | m in before && m != order[i]
        ensures m in after && after[m] == before[m]
      {
      }
    }
  }

  /** With an ERROR the connection gives up one login: all of them exactly when
      it has at most one. */
  lemma ErrorFreesLogins(w: World, s: Step)
    requires Inv(w) && Enabled(w, s) && s.Process? && ErrorSince(w.tables, Apply(w, s).tables, s.conn)
    ensures HoldsNothing(Apply(w, s).tables, s.conn) <==> HoldsOneAtMost(w.tables, s.conn)
    ensures Apply(w, s).tables.users == w.tables.users
  {
    ErrorExpels(w, s);
    hide Apply, ErrorSince, Enabled, Stumbles, GivesUp, GotTo;
    GivingUpFrees(w.tables.loggedIn, Apply(w, s).tables.loggedIn, s.conn, s.orders.logins);
  }

  /** A login that an expelled connection held as its only one is to be had again,
      by whoever is there and knows its passcode. */
  lemma LoginComesFree(w: World, s: Step, login: string, next: Step)
    requires Inv(w) && Enabled(w, s) && s.Process? && ErrorSince(w.tables, Apply(w, s).tables, s.conn)
    requires login in w.tables.loggedIn && w.tables.loggedIn[login] == s.conn && HoldsOneAtMost(w.tables, s.conn)
    requires Asks(Apply(w, s), next, login, Some(w.tables.users[login])) && next.conn in Apply(w, s).tables.active
    ensures Apply(w, s).tables.sent <= Apply(Apply(w, s), next).tables.sent
    ensures SentIn(Apply(w, s), next) == [Delivery(next.conn, CONNECTED)]
  {
    ErrorFreesLogins(w, s);
    ErrorExpels(w, s);
    StepKeeps(w, s);
    var t, t' := w.tables, Apply(w, s).tables;
    hide Apply, ErrorSince, Enabled, Asks, Stumbles, GotTo, GivesUp, SentIn;
    GivingUpFrees(t.loggedIn, t'.loggedIn, s.conn, s.orders.logins);
    assert login !in t'.loggedIn;
    ConnectedIff(Apply(w, s), next, login, Some(t.users[login]));
  }

  // ----- A run -----

  const TWO := Apply(Apply(ONE, AddConnection), CountConnection)

  lemma TwoAccepted()
    ensures Inv(TWO) && TWO.tables == EMPTY_TABLES.(active := map[0 := Conn(0), 1 := Conn(1)], counter := 2)
    ensures View(TWO.tables, 0) == map[]
  {
    OneAccepted();
    StepKeeps(ONE, AddConnection);
    StepKeeps(Apply(ONE, AddConnection), CountConnection);
  }

  /** A first client takes a login. */
  lemma TakesAlone(w: World, s: Step, r: Request)
    requires Inv(w) && Enabled(w, s) && IsAsked(s, 0, r) && Sendable(r) && r.Connect?
    requires 0 in w.tables.active && View(w.tables, 0) == map[] && MayConnect(w.tables, r.login, Some(r.passcode))
    ensures var w' := Apply(w, s);
            && Inv(w') && w'.tables.active == w.tables.active && View(w'.tables, 0) == map[]
            && w'.tables.counter == w.tables.counter
            && w'.tables.loggedIn == w.tables.loggedIn[r.login := 0]
            && w'.tables.users == w.tables.users[r.login := r.passcode]
  {
    TakesLogin(w, s, r.login, r.passcode);
    AskedIn(w, s, 0, r);
    RequestArrives(r);
    CommandsDiffer(r);
    assert !Leaves(w, s) by {
      CommandNamesDiffer();
      hide WireText, Apply, JavaParse;
    }
    hide WireText, JavaParse, Called, Apply, View, ErrorSince, Sendable;
    OthersStay(w, s);
  }

  /** Sending to a channel that is not joined brings an ERROR. */
  lemma StrangerErrs(w: World, s: Step, r: Request)
    requires Inv(w) && Enabled(w, s) && IsAsked(s, 0, r) && Sendable(r) && r.Send?
    requires 0 in w.tables.active && View(w.tables, 0) == map[]
    ensures ErrorSince(w.tables, Apply(w, s).tables, 0)
  {
    hide WireText, Sendable, Called, TextVerdict, View, HasError, ErrorSince, Gives;
    RequestVerdict(w.tables, 0, r, s.orders);
    CallGives(w, 0, WireText(r), s.orders);
    GivesError(w.tables, Called(w, s), 0, TextVerdict(w.tables, 0, WireText(r), s.orders));
  }

  /** A run from the empty server: a client takes a login, sends to a channel it
      has not joined and is expelled; another client asks for the same login, with
      its passcode, and is CONNECTED. */
  lemma ExpelledLoginIsTaken(login: string, passcode: string, r: Request) returns (a: Step, b: Step, c: Step)
    requires Sendable(Connect(login, passcode)) && Sendable(r) && r.Send?
    ensures var connect := Connect(login, passcode);
            && Enabled(TWO, a) && IsAsked(a, 0, connect)
            && Enabled(Apply(TWO, a), b) && IsAsked(b, 0, r)
            && Enabled(Apply(Apply(TWO, a), b), c) && IsAsked(c, 1, connect)
            && var w := Apply(Apply(TWO, a), b);
               w.tables.sent <= Apply(w, c).tables.sent && SentIn(w, c) == [Delivery(1, CONNECTED)]
  {
    TwoAccepted();
    var connect := Connect(login, passcode);
    hide Apply, WireText, Sendable, View, Called, ErrorSince, JavaParse, Stumbles, Disconnects, SentIn;
    a := MayAsk(TWO, 0, connect);
    TakesAlone(TWO, a, connect);
    var w1 := Apply(TWO, a);
    b := MayAsk(w1, 0, r);
    StrangerErrs(w1, b, r);
    ErrorExpels(w1, b);
    StepKeeps(w1, b);
    CounterGrows(w1, b);
    var w2 := Apply(w1, b);
    c := MayAsk(w2, 1, connect);
    RequestArrives(connect);
    CommandsDiffer(connect);
    AsksFor(w2, c, connect);
    LoginComesFree(w1, b, login, c);
  }

  lemma AsksFor(w: World, s: Step, r: Request)
    requires Enabled(w, s) && IsAsked(s, 1, r) && r.Connect? && Sendable(r)
    ensures Asks(w, s, r.login, Some(r.passcode))
  {
    hide WireText, JavaParse, OrdersFit;
    RequestArrives(r);
    CommandsDiffer(r);
    assert Header(Arrived(r), "login") == Some(r.login) && Header(Arrived(r), "passcode") == Some(r.passcode);
  }
}
