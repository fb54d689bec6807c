/** Runs on which the server does not do what its comments promise. */
module Shortcomings {
  import opened Text
  import opened StompFrames
  import opened Decimal
  import opened ConnectionTables
  import opened ServerProtocol
  import opened ServerRuns
  import opened ServerView
  import opened BroadcastHistory
  import opened LoginTables
  import opened ClientSession
  import opened OneCall
  import opened OwnRequests

  // ----- Tables can be iterated -----

  lemma {:induction false} SomeOrder<T>(keys: set<T>) returns (order: seq<T>)
    ensures IsOrder(order, keys)
  {
    if keys == {} {
      order := [];
    } else {
      var k :| k in keys;
      var others := SomeOrder(keys - {k});
      order := [k] + others;
    }
  }

  lemma {:induction false} SomeSubscribers(channels: map<string, map<Handler, int>>, some: set<string>)
    returns (subscribers: map<string, seq<Handler>>)
    requires some <= channels.Keys
    ensures forall ch | ch in some :: ch in subscribers && IsOrder(subscribers[ch], channels[ch].Keys)
    decreases |some|
  {
    if some == {} {
      subscribers := map[];
    } else {
      var ch :| ch in some;
      var others := SomeSubscribers(channels, some - {ch});
      var order := SomeOrder(channels[ch].Keys);
      hide IsOrder;
      subscribers := others[ch := order];
    }
  }

  /** In every state the tables iterate in some orders. */
  lemma SomeOrders(t: Tables) returns (o: Orders)
    ensures OrdersFit(t, o)
  {
    var logins := SomeOrder(t.loggedIn.Keys);
    var channels := SomeOrder(t.channels.Keys);
    var subscribers := SomeSubscribers(t.channels, t.channels.Keys);
    hide IsOrder;
    o := Orders(logins, channels, subscribers);
  }

  function Asking(conn: int, r: Request, o: Orders): Step {
    Process(conn, WireText(r), o)
  }

  predicate IsAsked(s: Step, conn: int, r: Request) {
    s.Process? && s == Asking(conn, r, s.orders)
  }

  /** A request can be handed in by every counted connection. */
  lemma MayAsk(w: World, conn: int, r: Request) returns (s: Step)
    requires Inv(w) && 0 <= conn < w.tables.counter
    ensures Enabled(w, s) && IsAsked(s, conn, r)
  {
    var o := SomeOrders(w.tables);
    hide WireText, OrdersFit;
    s := Asking(conn, r, o);
  }

  /** One connection has been accepted. */
  lemma OneAccepted()
    ensures var w := Apply(Apply(INITIAL, AddConnection), CountConnection);
            && Inv(w) && !w.accepting && w.tables == EMPTY_TABLES.(active := map[0 := Conn(0)], counter := 1)
            && View(w.tables, 0) == map[]
  {
  }

  /** A request of an accepted connection that fits its subscriptions. */
  lemma AskedIn(w: World, s: Step, conn: int, r: Request)
    requires Inv(w) && Enabled(w, s) && IsAsked(s, conn, r)
    requires conn in w.tables.active && Sendable(r) && Sane(View(w.tables, conn)) && Fits(View(w.tables, conn), r)
    ensures Inv(Apply(w, s))
    ensures var t' := Apply(w, s).tables;
            && t' == Called(w, s).tables
            && (if Refused(w.tables, r) then TurnedDown(w.tables, t', conn) else Served(w.tables, t', conn, r))
            && (Called(w, s).thrown.Some? <==> Throws(w.tables, r, s.orders))
            && t'.counter == w.tables.counter && Apply(w, s).accepting == w.accepting
  {
    StepKeeps(w, s);
    RequestIsServed(w, conn, r, s.orders);
    ProcessKeeps(w.tables, w.protos[s.conn].(connectionID := s.conn), s.message, s.orders, w.accepting);
    hide Processed, WireText, Served, TurnedDown, Refused, Throws, Sendable, View, Sane, Fits, OrdersFit;
  }

  const ONE := Apply(Apply(INITIAL, AddConnection), CountConnection)

  /** Runs that begin with one connection. */
  lemma AtOne(steps: seq<Step>)
    requires |steps| > 1 && steps[0] == AddConnection && steps[1] == CountConnection
    ensures At(steps, 2) == ONE
    ensures Enabled(At(steps, 0), steps[0]) && Enabled(At(steps, 1), steps[1])
    ensures forall k | 2 <= k < |steps| :: At(steps, k + 1) == Apply(At(steps, k), steps[k])
  {
    assert Apply(INITIAL, AddConnection).accepting;
    hide Apply;
    assert At(steps, 0) == INITIAL;
    assert At(steps, 1) == Apply(INITIAL, AddConnection);
  }

  // ----- Unsubscribing -----

  /** A client subscribes and unsubscribes: under every number up to 127 it is
      sent the RECEIPT and the subscription is gone, under every other number it
      is sent an ERROR. */
  lemma UnsubscribingEndsAt127(channel: string, id: int, receipt: int, receipt': int) returns (a: Step, b: Step)
    requires Sendable(Subscribe(channel, id, receipt)) && 0 <= id && IsInt(receipt')
    ensures var steps := [AddConnection, CountConnection, a, b];
            && IsAsked(a, 0, Subscribe(channel, id, receipt)) && Enabled(At(steps, 2), a)
            && IsAsked(b, 0, Unsubscribe(channel, id, receipt')) && Enabled(At(steps, 3), b)
            && var t, t' := At(steps, 3).tables, At(steps, 4).tables;
               && View(t, 0) == map[channel := id]
               && (ErrorSince(t, t', 0) <==> id > 127)
               && (id <= 127 ==>
                     View(t', 0) == map[] && OwnAnswers(t'.sent, 0) ==
                     OwnAnswers(t.sent, 0) + [ReceiptFrame(Some(ToString(receipt')))])
  {
    OneAccepted();
    hide WireText, Apply, Called, ToString, OwnAnswers;
    var r, r' := Subscribe(channel, id, receipt), Unsubscribe(channel, id, receipt');
    a := MayAsk(ONE, 0, r);
    AskedIn(ONE, a, 0, r);
    var w := Apply(ONE, a);
    assert View(w.tables, 0) == map[channel := id];
    b := MayAsk(w, 0, r');
    AskedIn(w, b, 0, r');
    AtOne([AddConnection, CountConnection, a, b]);
    hide View, At, Enabled, ErrorSince;
    assert map[channel := id] - {channel} == map[];
  }

  // ----- DISCONNECT -----

  /** A client subscribes, disconnects, and is still subscribed. */
  lemma SubscriptionOutlivesDisconnect(channel: string, id: int, receipt: int, receipt': int) returns (a: Step, b: Step)
    requires Sendable(Subscribe(channel, id, receipt)) && 0 <= id && IsInt(receipt')
    ensures var steps := [AddConnection, CountConnection, a, b];
            && IsAsked(a, 0, Subscribe(channel, id, receipt)) && Enabled(At(steps, 2), a)
            && IsAsked(b, 0, Disconnect(receipt')) && Leaves(At(steps, 3), b)
            && SubscribedTo(At(steps, 4).tables, 0, channel)
  {
    OneAccepted();
    hide WireText, Apply, Called, ToString, JavaParse;
    var r, r' := Subscribe(channel, id, receipt), Disconnect(receipt');
    a := MayAsk(ONE, 0, r);
    AskedIn(ONE, a, 0, r);
    var w := Apply(ONE, a);
    assert channel in View(w.tables, 0);
    b := MayAsk(w, 0, r');
    RequestArrives(r');
    CommandsDiffer(r');
    DisconnectCancelsNothing(w, b);
    assert SubscribedTo(w.tables, 0, channel);
    AtOne([AddConnection, CountConnection, a, b]);
    hide View, At, Enabled, ErrorSince;
  }

  /** A client takes two logins on its connection and disconnects: it still
      holds one of them. */
  lemma LoginOutlivesDisconnect(login: string, passcode: string, login': string, passcode': string, receipt: int)
    returns (a: Step, b: Step, c: Step)
    requires Sendable(Connect(login, passcode)) && Sendable(Connect(login', passcode')) && IsInt(receipt)
    requires login != login'
    ensures var steps := [AddConnection, CountConnection, a, b, c];
            && IsAsked(a, 0, Connect(login, passcode)) && Enabled(At(steps, 2), a)
            && IsAsked(b, 0, Connect(login', passcode')) && Enabled(At(steps, 3), b)
            && IsAsked(c, 0, Disconnect(receipt)) && Leaves(At(steps, 4), c)
            && At(steps, 4).tables.loggedIn == map[login := 0, login' := 0]
            && !HoldsNothing(At(steps, 5).tables, 0)
  {
    OneAccepted();
    hide WireText, Apply, Called, JavaParse, View;
    a := MayAsk(ONE, 0, Connect(login, passcode));
    TakesLogin(ONE, a, login, passcode);
    var w := Apply(ONE, a);
    b := MayAsk(w, 0, Connect(login', passcode'));
    TakesLogin(w, b, login', passcode');
    var w' := Apply(w, b);
    c := MayAsk(w', 0, Disconnect(receipt));
    RequestArrives(Disconnect(receipt));
    CommandsDiffer(Disconnect(receipt));
    DisconnectFreesLogins(w', c);
    var t := w'.tables.loggedIn;
    assert t == map[login := 0, login' := 0];
    assert login in t && login' in t && t[login] == 0 && t[login'] == 0;
    assert !HoldsOneAtMost(w'.tables, 0);
    AtOne([AddConnection, CountConnection, a, b, c]);
    hide At, Enabled, Leaves, HoldsNothing, HoldsOneAtMost;
  }

  lemma TakesLogin(w: World, s: Step, login: string, passcode: string)
    requires Inv(w) && 0 in w.tables.active && Enabled(w, s) && IsAsked(s, 0, Connect(login, passcode))
    requires Sendable(Connect(login, passcode)) && View(w.tables, 0) == map[]
    requires MayConnect(w.tables, login, Some(passcode))
    ensures var w' := Apply(w, s);
            && Inv(w') && 0 in w'.tables.active && View(w'.tables, 0) == map[]
            && w'.tables.counter == w.tables.counter
            && w'.tables.loggedIn == w.tables.loggedIn[login := 0]
            && w'.tables.users == w.tables.users[login := passcode]
  {
    var r := Connect(login, passcode);
    AskedIn(w, s, 0, r);
    RequestArrives(r);
    CommandsDiffer(r);
    hide WireText, Apply, Called, JavaParse, View;
    ConnectedIff(w, s, login, Some(passcode));
  }

  // ----- The null key -----

  ghost predicate NoNull(t: Tables) {
    forall ch :: !HasNull(t, ch)
  }

  /** A counted connection that has not been removed leaves no null key. */
  lemma LiveLeavesNoNull(w: World, s: Step)
    requires Inv(w) && NoNull(w.tables) && (s.Process? ==> s.conn in w.tables.active)
    ensures NoNull(Apply(w, s).tables)
  {
    forall ch
      ensures !HasNull(Apply(w, s).tables, ch)
    {
      NullKeyAppearsIff(w, s, ch);
    }
    hide Apply;
  }

  /** A connection that sends to a channel it has not joined is removed. */
  lemma StrangerIsRemoved(w: World, s: Step, conn: int, r: Request)
    requires Inv(w) && !w.accepting && NoNull(w.tables) && Enabled(w, s) && IsAsked(s, conn, r)
    requires conn in w.tables.active && Sendable(r) && r.Send? && r.channel !in View(w.tables, conn)
    ensures conn !in Apply(w, s).tables.active
  {
    RequestIsCalled(w, conn, r, s.orders);
    var t, p := w.tables, w.protos[conn].(connectionID := conn, shouldTerminate := false);
    var error := ErrorFrame(map["message" := "The user isn't subscribed to channel: " + r.channel]);
    hide WireText, Processed, JavaParse, Called;
    assert Called(w, s) == OnSend(t, p, Arrived(r), s.orders);
    assert Header(Arrived(r), "destination") == Some(r.channel);
    assert UserSubId(t, r.channel, conn) == -1;
    RejectedRemoves(t, p, error, s.orders);
  }

  lemma RejectedRemoves(t: Tables, p: Proto, error: Frame, o: Orders)
    requires OrdersFit(t, o) && NoNull(t) && t.counter !in t.active
    requires Lookup(t, p.connectionID) == Conn(p.connectionID)
    ensures Answer(t, p, error).thrown.None? && OrdersFit(Answer(t, p, error).tables, o)
    ensures Answer(t, p, error).proto == p
    ensures p.connectionID !in Rejected(Answer(t, p, error).tables, p, error, o).tables.active
  {
    var e := Answer(Answer(t, p, error).tables, p, error);
    var one := e.tables.(closed := e.tables.closed + {p.connectionID});
    assert Lookup(one, one.counter) == Null;
    assert forall ch | ch in one.channels :: !HasNull(t, ch);
    DisconnectedMeans(one, p.connectionID, o);
  }

  /** When a removed connection subscribes, its channel gets a null key. */
  lemma GhostLeavesNull(w: World, s: Step, conn: int, r: Request)
    requires Inv(w) && Enabled(w, s) && IsAsked(s, conn, r) && Sendable(r) && r.Subscribe? && conn !in w.tables.active
    ensures HasNull(Apply(w, s).tables, r.channel) || HasNull(w.tables, r.channel)
  {
    RequestArrives(r);
    CommandsDiffer(r);
    ReadBack(r.id);
    assert Header(Arrived(r), "id") == Some(ToString(r.id)) && Header(Arrived(r), "destination") == Some(r.channel);
    hide WireText, JavaParse, Called, Apply, ToString;
    assert GhostChannel(w, s) == Some(r.channel);
    if !HasNull(w.tables, r.channel) {
      NullKeyAppearsIff(w, s, r.channel);
    }
  }

  /** Whatever the state, as long as it has no null key, four steps of a new
      client give any channel one: it connects, sends to a channel it has not
      joined, is removed, and subscribes. */
  lemma StrangerLeavesNull(w: World, r: Request, r': Request) returns (a: Step, b: Step)
    requires Inv(w) && !w.accepting && NoNull(w.tables)
    requires Sendable(r) && r.Send? && Sendable(r') && r'.Subscribe?
    ensures var conn, w2 := w.tables.counter, Apply(Apply(w, AddConnection), CountConnection);
            && Enabled(w, AddConnection) && Enabled(Apply(w, AddConnection), CountConnection)
            && IsAsked(a, conn, r) && Enabled(w2, a)
            && IsAsked(b, conn, r') && Enabled(Apply(w2, a), b)
            && HasNull(Apply(Apply(w2, a), b).tables, r'.channel)
  {
    var conn, w1 := w.tables.counter, Apply(w, AddConnection);
    var w2 := Apply(w1, CountConnection);
    StepKeeps(w, AddConnection);
    StepKeeps(w1, CountConnection);
    NewcomerIsCounted(w);
    hide Apply, WireText, Sendable;
    a := MayAsk(w2, conn, r);
    StrangerIsRemoved(w2, a, conn, r);
    LiveLeavesNoNull(w2, a);
    StepKeeps(w2, a);
    CounterGrows(w2, a);
    var w3 := Apply(w2, a);
    b := MayAsk(w3, conn, r');
    GhostLeavesNull(w3, b, conn, r');
  }

  lemma NewcomerIsCounted(w: World)
    requires Inv(w) && !w.accepting && NoNull(w.tables)
    ensures var conn, w2 := w.tables.counter, Apply(Apply(w, AddConnection), CountConnection);
            && !w2.accepting && NoNull(w2.tables) && conn in w2.tables.active && w2.tables.counter == conn + 1
            && View(w2.tables, conn) == map[]
  {
    var w2 := Apply(Apply(w, AddConnection), CountConnection);
    assert forall ch :: HasNull(w2.tables, ch) <==> HasNull(w.tables, ch);
    assert Conn(w.tables.counter) == Conn(w.tables.counter);
    forall ch | ch in w.tables.channels
      ensures Conn(w.tables.counter) !in w.tables.channels[ch]
    {
      assert Conn(w.tables.counter) in w.tables.channels[ch] ==> Known(Conn(w.tables.counter), w.tables.counter);
    }
  }

  predicate AllEnabled(steps: seq<Step>) {
    forall k | 0 <= k < |steps| :: Enabled(At(steps, k), steps[k])
  }

  /** A client has joined a channel and is there; then a stranger comes, and the
      next SEND to this channel, although it is accepted, throws. */
  lemma SendThrowsOverNull(channel: string, id: int, receipt: int, other: string, id': int, receipt': int,
                           body: string, body': string) returns (steps: seq<Step>)
    requires Sendable(Subscribe(channel, id, receipt)) && 0 <= id && Sendable(Subscribe(channel, id', receipt'))
    requires Sendable(Send(other, body)) && Sendable(Send(channel, body'))
    ensures |steps| == 8 && AllEnabled(steps)
    ensures steps[0] == steps[3] == AddConnection && steps[1] == steps[4] == CountConnection
    ensures IsAsked(steps[2], 0, Subscribe(channel, id, receipt)) && IsAsked(steps[5], 1, Send(other, body))
    ensures IsAsked(steps[6], 1, Subscribe(channel, id', receipt')) && IsAsked(steps[7], 0, Send(channel, body'))
    ensures var w := At(steps, 7);
            && 0 in w.tables.active && View(w.tables, 0) == map[channel := id]
            && AcceptedOn(w, steps[7]) == Some(channel)
            && Called(w, steps[7]).thrown.Some?
  {
    hide *;
    var joins, a, b, sends := NullScene(channel, id, receipt, other, id', receipt', body, body');
    steps := [AddConnection, CountConnection, joins, AddConnection, CountConnection, a, b, sends];
    EightSteps(steps);
  }

  lemma EightSteps(steps: seq<Step>)
    requires |steps| == 8 && steps[0] == steps[3] == AddConnection && steps[1] == steps[4] == CountConnection
    ensures var w := Apply(ONE, steps[2]);
            var w2 := Apply(Apply(w, AddConnection), CountConnection);
            var w4 := Apply(Apply(w2, steps[5]), steps[6]);
            && At(steps, 7) == w4
            && (Enabled(ONE, steps[2]) && Enabled(w, AddConnection) && Enabled(Apply(w, AddConnection), CountConnection)
                && Enabled(w2, steps[5]) && Enabled(Apply(w2, steps[5]), steps[6]) && Enabled(w4, steps[7]) ==>
                  AllEnabled(steps))
  {
    AtOne(steps);
    hide Apply, Enabled, At;
    assert At(steps, 3) == Apply(ONE, steps[2]);
    assert At(steps, 5) == Apply(Apply(At(steps, 3), AddConnection), CountConnection);
  }

  lemma NullScene(channel: string, id: int, receipt: int, other: string, id': int, receipt': int,
                  body: string, body': string) returns (joins: Step, a: Step, b: Step, sends: Step)
    requires Sendable(Subscribe(channel, id, receipt)) && 0 <= id && Sendable(Subscribe(channel, id', receipt'))
    requires Sendable(Send(other, body)) && Sendable(Send(channel, body'))
    ensures var w := Apply(ONE, joins);
            var w2 := Apply(Apply(w, AddConnection), CountConnection);
            var w4 := Apply(Apply(w2, a), b);
            && Enabled(ONE, joins) && Enabled(w, AddConnection) && Enabled(Apply(w, AddConnection), CountConnection)
            && Enabled(w2, a) && Enabled(Apply(w2, a), b) && Enabled(w4, sends)
            && IsAsked(joins, 0, Subscribe(channel, id, receipt)) && IsAsked(a, 1, Send(other, body))
            && IsAsked(b, 1, Subscribe(channel, id', receipt')) && IsAsked(sends, 0, Send(channel, body'))
            && 0 in w4.tables.active && View(w4.tables, 0) == map[channel := id]
            && AcceptedOn(w4, sends) == Some(channel)
            && Called(w4, sends).thrown.Some?
  {
    OneAccepted();
    hide WireText, Apply, Called, View, Sendable, AcceptedOn, HasNull, ErrorSince, Enabled, Inv, NoNull;
    var r, r' := Subscribe(channel, id, receipt), Send(channel, body');
    EmptyHasNoNull();
    joins := MayAsk(ONE, 0, r);

    AskedIn(ONE, joins, 0, r);
    LiveLeavesNoNull(ONE, joins);
    var w := Apply(ONE, joins);
    a, b := StrangerLeavesNull(w, Send(other, body), Subscribe(channel, id', receipt'));
    var w2 := Apply(Apply(w, AddConnection), CountConnection);
    var w4 := Apply(Apply(w2, a), b);

    StrangersAreAloof(w, a, b, 0);
    sends := MayAsk(w4, 0, r');
    AskedIn(w4, sends, 0, r');
    SubscriberSends(w4, sends, 0, r');
  }

  lemma EmptyHasNoNull()
    ensures NoNull(ONE.tables)
  {
  }

  /** The steps of a stranger keep the subscriptions of another connection. */
  lemma StrangersAreAloof(w: World, a: Step, b: Step, me: int)
    requires Inv(w) && !w.accepting && 0 <= me < w.tables.counter
    requires a.Process? && b.Process? && a.conn == b.conn == w.tables.counter
    ensures var w' := Apply(Apply(Apply(Apply(w, AddConnection), CountConnection), a), b);
            && Inv(w') && View(w'.tables, me) == View(w.tables, me)
            && (me in w'.tables.active <==> me in w.tables.active)
            && me < w'.tables.counter
  {
    hide Apply, View, Inv;
    var w1 := Apply(w, AddConnection);
    var w2 := Apply(w1, CountConnection);
    var w3 := Apply(w2, a);
    OneAloof(w, AddConnection, me);
    OneAloof(w1, CountConnection, me);
    OneAloof(w2, a, me);
    OneAloof(w3, b, me);
  }

  lemma OneAloof(w: World, s: Step, me: int)
    requires Inv(w) && 0 <= me < w.tables.counter && (s.Process? ==> s.conn != me)
    ensures var w' := Apply(w, s);
            && Inv(w') && View(w'.tables, me) == View(w.tables, me)
            && (me in w'.tables.active <==> me in w.tables.active)
            && me < w'.tables.counter
  {
    StepKeeps(w, s);
    CounterGrows(w, s);
    OthersAreAloof(w, s, me);
    hide Apply, View, Inv;
  }

  lemma SubscriberSends(w: World, s: Step, me: int, r: Request)
    requires Inv(w) && Enabled(w, s) && IsAsked(s, me, r) && Sendable(r) && r.Send?
    requires me in w.tables.active && r.channel in View(w.tables, me) && 0 <= View(w.tables, me)[r.channel]
    ensures AcceptedOn(w, s) == Some(r.channel)
  {
    hide AcceptedOn, WireText, OrdersFit, Sendable, View;
    SubscriberIsAccepted(w, me, r, s.orders);
  }
}
