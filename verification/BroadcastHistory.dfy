/** What subscribers are sent over a whole run of the server. */
module BroadcastHistory {
  import opened Text
  import opened StompFrames
  import opened Decimal
  import opened ConnectionTables
  import opened ServerProtocol
  import opened ServerRuns

  /** The channel of a step that is a SEND by a subscriber of that channel. */
  function AcceptedOn(w: World, s: Step): (r: Option<string>)
    ensures r.Some? ==> Enabled(w, s) && s.Process? && JavaParse(s.message).Ok?
  {
    if !Enabled(w, s) || !s.Process? || JavaParse(s.message).Err? then None
    else
      var f := JavaParse(s.message).value;
      if f.command != "SEND" || "destination" !in f.headers then None
      else if UserSubId(w.tables, f.headers["destination"], s.conn) == -1 then None
      else Some(f.headers["destination"])
  }

  /** The accepted SENDs of a connection among the first `n` steps. */
  function SendsBy(steps: seq<Step>, n: nat, conn: int): nat
    requires n <= |steps|
  {
    if n == 0 then 0
    else
      var s := steps[n - 1];
      SendsBy(steps, n - 1, conn)
      + if AcceptedOn(At(steps, n - 1), s).Some? && s.conn == conn then 1 else 0
  }

  /** An accepted SEND on this channel whose broadcast gets to this connection,
      that is, no null key comes first. */
  predicate Reaches(w: World, s: Step, c: int, ch: string) {
    AcceptedOn(w, s) == Some(ch) && c in Reached(s.orders.subscribers[ch])
  }

  /** The MESSAGE of step `k`: the sender's subscription number, the count of
      its earlier accepted SENDs, and the body it sent. */
  function MessageOf(steps: seq<Step>, k: nat, ch: string): Frame
    requires k < |steps| && AcceptedOn(At(steps, k), steps[k]).Some?
  {
    var s := steps[k];
    MessageFrame(UserSubId(At(steps, k).tables, ch, s.conn), SendsBy(steps, k, s.conn), ch,
                 JavaParse(s.message).value.body)
  }

  /** The steps, among the first `n`, whose messages reach a connection. */
  function Broadcasts(steps: seq<Step>, n: nat, c: int, ch: string): seq<nat>
    requires n <= |steps|
  {
    if n == 0 then []
    else Broadcasts(steps, n - 1, c, ch) + if Reaches(At(steps, n - 1), steps[n - 1], c, ch) then [n - 1] else []
  }

  predicate IsMessage(d: Delivery, c: int, ch: string) {
    && d.to == c
    && d.frame.command == "MESSAGE"
    && "destination" in d.frame.headers
    && d.frame.headers["destination"] == ch
  }

  /** The MESSAGE frames for a channel among all that was sent to a connection. */
  function Received(sent: seq<Delivery>, c: int, ch: string): seq<Frame> {
    if sent == [] then []
    else
      var n := |sent| - 1;
      Received(sent[..n], c, ch) + if IsMessage(sent[n], c, ch) then [sent[n].frame] else []
  }

  lemma ReceivedSnoc(sent: seq<Delivery>, d: Delivery, c: int, ch: string)
    ensures Received(sent + [d], c, ch) == Received(sent, c, ch) + if IsMessage(d, c, ch) then [d.frame] else []
  {
    assert (sent + [d])[..|sent|] == sent;
  }

  // ----- What one step sends -----

  lemma {:induction false} ReceivedDeliveries(sent: seq<Delivery>, to: seq<int>, frame: Frame, c: int, ch: string)
    requires forall i, j | 0 <= i < j < |to| :: to[i] != to[j]
    ensures Received(sent + Deliveries(to, frame), c, ch) ==
            Received(sent, c, ch) + if c in to && IsMessage(Delivery(c, frame), c, ch) then [frame] else []
    decreases |to|
  {
    if to == [] {
      assert sent + Deliveries(to, frame) == sent;
    } else {
      var d, rest := Delivery(to[0], frame), to[1..];
      assert to == [to[0]] + rest && to[0] !in rest;
      ReceivedDeliveries(sent + [d], rest, frame, c, ch);
      ReceivedSnoc(sent, d, c, ch);
      Assoc(sent, [d], Deliveries(rest, frame));
    }
  }

  /** Sending no MESSAGE: only answers are added. */
  predicate OnlyAnswers(t: Tables, t': Tables) {
    && t.sent <= t'.sent
    && forall i | |t.sent| <= i < |t'.sent| :: t'.sent[i].frame.command != "MESSAGE"
  }

  lemma {:induction false} AnswersAreNotReceived(sent: seq<Delivery>, more: seq<Delivery>, c: int, ch: string)
    requires sent <= more && forall i | |sent| <= i < |more| :: more[i].frame.command != "MESSAGE"
    ensures Received(more, c, ch) == Received(sent, c, ch)
    decreases |more|
  {
    if |more| == |sent| {
      assert more == sent;
    } else {
      AnswersAreNotReceived(sent, more[..|more| - 1], c, ch);
    }
  }

  lemma AnswerOnly(t: Tables, p: Proto, frame: Frame, o: Orders)
    requires OrdersFit(t, o) && frame.command != "MESSAGE"
    ensures OnlyAnswers(t, Answer(t, p, frame).tables)
    ensures OnlyAnswers(t, Rejected(t, p, frame, o).tables)
    ensures OnlyAnswers(t, Rejected(Answer(t, p, frame).tables, p, frame, o).tables)
  {
    RejectedOnceOnly(t, p, frame, o);
    hide Rejected;
    RejectedOnceOnly(Answer(t, p, frame).tables, p, frame, o);
  }

  lemma RejectedOnceOnly(t: Tables, p: Proto, frame: Frame, o: Orders)
    requires OrdersFit(t, o) && frame.command != "MESSAGE"
    ensures OrdersFit(Answer(t, p, frame).tables, o)
    ensures OnlyAnswers(t, Answer(t, p, frame).tables)
    ensures OnlyAnswers(t, Rejected(t, p, frame, o).tables)
  {
    var one := Answer(t, p, frame).tables;
    if Answer(t, p, frame).thrown.None? {
      DisconnectedMeans(one.(closed := one.closed + {p.connectionID}), p.connectionID, o);
    }
  }

  lemma NamesDiffer()
    ensures "ERROR" != "MESSAGE"
    ensures "RECEIPT" != "MESSAGE"
    ensures "CONNECTED" != "MESSAGE"
  {
    var e, r, c, m := "ERROR", "RECEIPT", "CONNECTED", "MESSAGE";
    assert |e| == 5 && |c| == 9 && |m| == 7;
    assert r[0] == 'R' && m[0] == 'M';
  }

  lemma OnConnectAnswers(t: Tables, p: Proto, f: Frame, o: Orders)
    requires OrdersFit(t, o)
    ensures OnlyAnswers(t, OnConnect(t, p, f, o).tables)
  {
    NamesDiffer();
    hide Rejected, OrdersFit;
    if Header(f, "login").Some? {
      var login := Header(f, "login").value;
      if login in t.loggedIn {
        AnswerOnly(t, p, ErrorFrame(map["message" := "User is already connected"]), o);
      } else {
        var (t', r) := Connected(t, login, Header(f, "passcode"), p.connectionID);
        assert t'.sent == t.sent && (r == Ok(false) ==> t' == t);
        hide Connected;
        if r == Ok(false) {
          AnswerOnly(t, p, ErrorFrame(map["message" := "Wrong password"]), o);
        }
      }
    }
  }

  lemma OnDisconnectAnswers(t: Tables, p: Proto, f: Frame, o: Orders)
    requires OrdersFit(t, o)
    ensures OnlyAnswers(t, OnDisconnect(t, p, f, o).tables)
  {
    NamesDiffer();
    DisconnectedMeans(Answer(t, p, ReceiptFrame(Header(f, "receipt"))).tables, p.connectionID, o);
  }

  lemma OnUnsubscribeAnswers(t: Tables, p: Proto, f: Frame, o: Orders)
    requires OrdersFit(t, o)
    ensures OnlyAnswers(t, OnUnsubscribe(t, p, f, o).tables)
  {
    NamesDiffer();
    if HeaderNumber(Header(f, "id")).Ok? {
      var ch := UnsubscribedMeans(t, HeaderNumber(Header(f, "id")).value, Lookup(t, p.connectionID), o.channels);
      AnswerOnly(t, p, ErrorFrame(map[
        "receipt-id" := Printed(Header(f, "receipt")),
        "message" := "The user isn't subscribed with that number: " + Printed(Header(f, "id"))]), o);
    }
  }

  lemma SubscribedSendsNothing(t: Tables, channel: string, subId: int, h: Handler)
    ensures var (t', done) := Subscribed(t, channel, subId, h); t'.sent == t.sent && (!done ==> t' == t)
  {
  }

  lemma OnSubscribeAnswers(t: Tables, p: Proto, f: Frame, o: Orders)
    requires OrdersFit(t, o)
    ensures OnlyAnswers(t, OnSubscribe(t, p, f, o).tables)
  {
    hide Rejected, OrdersFit;
    NamesDiffer();
    if Header(f, "destination").Some? && HeaderNumber(Header(f, "id")).Ok? {
      SubscribedSendsNothing(t, Header(f, "destination").value, HeaderNumber(Header(f, "id")).value,
                             Lookup(t, p.connectionID));
      hide Subscribed, HeaderNumber;
      AnswerOnly(t, p, ErrorFrame(map[
        "receipt-id" := Printed(Header(f, "receipt")),
        "message" := "The user already subscribed to channel: " + Header(f, "destination").value]), o);
    }
  }

  lemma RefusedSendAnswers(t: Tables, p: Proto, f: Frame, o: Orders)
    requires OrdersFit(t, o)
    requires "destination" in f.headers ==> UserSubId(t, f.headers["destination"], p.connectionID) == -1
    ensures OnlyAnswers(t, OnSend(t, p, f, o).tables)
    ensures OnSend(t, p, f, o).proto.messageID == p.messageID
  {
    NamesDiffer();
    if "destination" in f.headers {
      var channel := f.headers["destination"];
      AnswerOnly(t, p, ErrorFrame(map["message" := "The user isn't subscribed to channel: " + channel]), o);
    }
  }

  lemma OthersKeepCount(t: Tables, p: Proto, f: Frame, o: Orders)
    requires OrdersFit(t, o)
    ensures OnConnect(t, p, f, o).proto.messageID == p.messageID
    ensures OnDisconnect(t, p, f, o).proto.messageID == p.messageID
    ensures OnUnsubscribe(t, p, f, o).proto.messageID == p.messageID
    ensures OnSubscribe(t, p, f, o).proto.messageID == p.messageID
  {
  }

  /** Every step but an accepted SEND only answers, and leaves the sender's
      count of messages alone. */
  lemma OtherStepsAnswer(w: World, s: Step)
    requires Enabled(w, s) && s.Process? && AcceptedOn(w, s).None?
    ensures OnlyAnswers(w.tables, Called(w, s).tables)
    ensures Called(w, s).proto.messageID == w.protos[s.conn].messageID
  {
    if JavaParse(s.message).Ok? {
      var f := JavaParse(s.message).value;
      var p := w.protos[s.conn].(connectionID := s.conn, shouldTerminate := f.command == "DISCONNECT");
      OnConnectAnswers(w.tables, p, f, s.orders);
      OnDisconnectAnswers(w.tables, p, f, s.orders);
      OnUnsubscribeAnswers(w.tables, p, f, s.orders);
      OnSubscribeAnswers(w.tables, p, f, s.orders);
      OthersKeepCount(w.tables, p, f, s.orders);
      if f.command == "SEND" {
        RefusedSendAnswers(w.tables, p, f, s.orders);
      }
      hide OnConnect, OnDisconnect, OnUnsubscribe, OnSubscribe, OnSend, JavaParse, OnlyAnswers, UserSubId;
    }
  }

  lemma AcceptedSendReaches(w: World, s: Step, ch: string)
    requires AcceptedOn(w, s) == Some(ch)
    ensures var p := w.protos[s.conn];
            var message := MessageFrame(UserSubId(w.tables, ch, s.conn), p.messageID, ch,
                                        JavaParse(s.message).value.body);
            var order := s.orders.subscribers[ch];
            && ch in w.tables.channels
            && Called(w, s) == Effect(
                 w.tables.(sent := w.tables.sent + Deliveries(Reached(order), message)),
                 Proto(false, p.messageID + 1, s.conn),
                 if Null in w.tables.channels[ch] then Some(NullPointer) else None)
  {
    var f := JavaParse(s.message).value;
    var p := w.protos[s.conn].(connectionID := s.conn, shouldTerminate := false);
    var message := MessageFrame(UserSubId(w.tables, ch, s.conn), p.messageID, ch, f.body);
    BroadcastReaches(w.tables, s.orders.subscribers[ch], message);
    assert Called(w, s) == Handled(w.tables, p.(shouldTerminate := w.protos[s.conn].shouldTerminate), f, s.orders);
    assert Called(w, s) == OnSend(w.tables, p, f, s.orders);
  }

  lemma StepReceives(w: World, s: Step, c: int, ch: string)
    ensures Received(Apply(w, s).tables.sent, c, ch) ==
            Received(w.tables.sent, c, ch) +
            if Reaches(w, s, c, ch) then
              [MessageFrame(UserSubId(w.tables, ch, s.conn), w.protos[s.conn].messageID, ch,
                            JavaParse(s.message).value.body)]
            else []
  {
    match AcceptedOn(w, s)
    case None =>
      if Enabled(w, s) && s.Process? {
        OtherStepsAnswer(w, s);
        AnswersAreNotReceived(w.tables.sent, Called(w, s).tables.sent, c, ch);
      }
    case Some(channel) =>
      AcceptedSendReaches(w, s, channel);
      var message := MessageFrame(UserSubId(w.tables, channel, s.conn), w.protos[s.conn].messageID, channel,
                                  JavaParse(s.message).value.body);
      var to := Reached(s.orders.subscribers[channel]);
      forall i, j | 0 <= i < j < |to|
        ensures to[i] != to[j]
      {
        assert s.orders.subscribers[channel][i] != s.orders.subscribers[channel][j];
      }
      ReceivedDeliveries(w.tables.sent, to, message, c, ch);
      assert IsMessage(Delivery(c, message), c, ch) <==> channel == ch;
  }

  // ----- Runs -----

  /** The ids of each sender count 0, 1, 2, and so on. */
  lemma {:induction false} MessageIdsCount(steps: seq<Step>, n: nat, conn: int)
    requires n <= |steps|
    ensures SendsBy(steps, n, conn) == Counted(At(steps, n), conn)
  {
    hide *;
    SendsNext(steps, n, conn);
    CountsFromZero(conn);
    if n > 0 {
      MessageIdsCount(steps, n - 1, conn);
      RunKeeps(steps, n - 1);
      StepCounts(At(steps, n - 1), steps[n - 1], conn);
    }
  }

  lemma SendsNext(steps: seq<Step>, n: nat, conn: int)
    requires n <= |steps|
    ensures n == 0 ==> SendsBy(steps, n, conn) == 0 && At(steps, n) == INITIAL
    ensures n > 0 ==>
              && At(steps, n) == Apply(At(steps, n - 1), steps[n - 1])
              && SendsBy(steps, n, conn) == SendsBy(steps, n - 1, conn)
                 + if AcceptedOn(At(steps, n - 1), steps[n - 1]).Some? && steps[n - 1].conn == conn then 1 else 0
  {
    hide Apply, AcceptedOn;
  }

  /** What a connection has counted so far. */
  function Counted(w: World, conn: int): int {
    if conn in w.protos then w.protos[conn].messageID else 0
  }

  lemma CountsFromZero(conn: int)
    ensures Counted(INITIAL, conn) == 0
  {
  }

  lemma StepCounts(w: World, s: Step, conn: int)
    requires Inv(w)
    ensures Counted(Apply(w, s), conn) ==
            Counted(w, conn) + if AcceptedOn(w, s).Some? && s.conn == conn then 1 else 0
  {
    hide Processed, Reached;
    if Enabled(w, s) && s.Process? {
      match AcceptedOn(w, s)
      case None => OtherStepsAnswer(w, s);
      case Some(ch) => AcceptedSendReaches(w, s, ch);
    }
    hide AcceptedOn, OrdersFit;
  }

  lemma {:induction false} BroadcastsAreThoseThatReach(steps: seq<Step>, n: nat, c: int, ch: string, k: nat)
    requires n <= |steps|
    ensures k in Broadcasts(steps, n, c, ch) <==> k < n && Reaches(At(steps, k), steps[k], c, ch)
  {
    hide Reaches, At;
    if n > 0 {
      BroadcastsAreThoseThatReach(steps, n - 1, c, ch, k);
    }
  }

  predicate Ascending(at: seq<nat>, n: nat) {
    && (forall i | 0 <= i < |at| :: at[i] < n)
    && (forall i, j | 0 <= i < j < |at| :: at[i] < at[j])
  }

  lemma {:induction false} BroadcastsAreInOrder(steps: seq<Step>, n: nat, c: int, ch: string)
    requires n <= |steps|
    ensures Ascending(Broadcasts(steps, n, c, ch), n)
  {
    hide Reaches, At;
    if n > 0 {
      BroadcastsAreInOrder(steps, n - 1, c, ch);
    }
  }

  /** The step before `n` sends its message, with the right id. */
  lemma LastStepReceived(steps: seq<Step>, n: nat, c: int, ch: string)
    requires 0 < n <= |steps|
    ensures var reaches := Reaches(At(steps, n - 1), steps[n - 1], c, ch);
            Received(At(steps, n).tables.sent, c, ch) ==
            Received(At(steps, n - 1).tables.sent, c, ch) + if reaches then [MessageOf(steps, n - 1, ch)] else []
  {
    hide Processed, JavaParse, Reached, UserSubId, MessageFrame;
    StepReceives(At(steps, n - 1), steps[n - 1], c, ch);
    if steps[n - 1].Process? {
      MessageIdsCount(steps, n - 1, steps[n - 1].conn);
    }
  }

  lemma NothingReceived(steps: seq<Step>, c: int, ch: string)
    ensures Received(At(steps, 0).tables.sent, c, ch) == []
  {
  }

  lemma {:induction false} BroadcastsAreReceived(steps: seq<Step>, n: nat, c: int, ch: string, i: nat)
    requires n <= |steps|
    ensures var at, got := Broadcasts(steps, n, c, ch), Received(At(steps, n).tables.sent, c, ch);
            && |got| == |at|
            && (i < |at| ==> at[i] < n && Reaches(At(steps, at[i]), steps[at[i]], c, ch)
                             && got[i] == MessageOf(steps, at[i], ch))
  {
    hide At, Reaches, MessageOf, Received;
    if n == 0 {
      NothingReceived(steps, c, ch);
    } else {
      BroadcastsAreReceived(steps, n - 1, c, ch, i);
      LastStepReceived(steps, n, c, ch);
    }
  }

  /** A connection is sent, for a channel, exactly the messages of the accepted
      SENDs that reach it, each once and in the order of processing. */
  lemma HistoryOfBroadcasts(steps: seq<Step>, c: int, ch: string)
    ensures var n := |steps|;
            var at, got := Broadcasts(steps, n, c, ch), Received(At(steps, n).tables.sent, c, ch);
            && (forall k: nat :: k in at <==> k < n && Reaches(At(steps, k), steps[k], c, ch))
            && Ascending(at, n)
            && |got| == |at|
            && (forall i | 0 <= i < |at| ::
                  AcceptedOn(At(steps, at[i]), steps[at[i]]) == Some(ch) && got[i] == MessageOf(steps, at[i], ch))
  {
    var at, got := Broadcasts(steps, |steps|, c, ch), Received(At(steps, |steps|).tables.sent, c, ch);
    BroadcastsAreInOrder(steps, |steps|, c, ch);
    BroadcastsAreReceived(steps, |steps|, c, ch, 0);
    forall k: nat
      ensures k in at <==> k < |steps| && Reaches(At(steps, k), steps[k], c, ch)
    {
      BroadcastsAreThoseThatReach(steps, |steps|, c, ch, k);
    }
    forall i | 0 <= i < |at|
      ensures AcceptedOn(At(steps, at[i]), steps[at[i]]) == Some(ch) && got[i] == MessageOf(steps, at[i], ch)
    {
      BroadcastsAreReceived(steps, |steps|, c, ch, i);
    }
  }

  /** What a message says: the channel and body as they were sent, the number
      under which the sender is subscribed, and how many messages it had sent. */
  lemma MessageSays(steps: seq<Step>, k: nat, ch: string)
    requires k < |steps| && AcceptedOn(At(steps, k), steps[k]) == Some(ch)
    requires IsInt(SendsBy(steps, k, steps[k].conn))
    ensures var f, sender, t := MessageOf(steps, k, ch), steps[k].conn, At(steps, k).tables;
            && f.headers.Keys == {"subscription", "message-id", "destination"}
            && f.headers["destination"] == JavaParse(steps[k].message).value.headers["destination"]
            && f.body == JavaParse(steps[k].message).value.body
            && ParseInt(f.headers["message-id"]) == Ok(SendsBy(steps, k, sender))
            && ch in t.channels && Lookup(t, sender) in t.channels[ch]
            && (IsInt(t.channels[ch][Lookup(t, sender)]) ==>
                  ParseInt(f.headers["subscription"]) == Ok(t.channels[ch][Lookup(t, sender)]))
  {
    var t, sender := At(steps, k).tables, steps[k].conn;
    ReadBack(SendsBy(steps, k, sender));
    if IsInt(UserSubId(t, ch, sender)) {
      ReadBack(UserSubId(t, ch, sender));
    }
    assert MessageOf(steps, k, ch).headers.Keys == {"subscription", "message-id", "destination"};
    hide At, SendsBy, ParseInt, ToString, JavaParse;
  }

  /** Any two subscribers see the messages they share in the same order. */
  lemma SubscribersAgree(steps: seq<Step>, c: int, d: int, ch: string, i: nat, i': nat, j: nat, j': nat)
    requires var atC, atD := Broadcasts(steps, |steps|, c, ch), Broadcasts(steps, |steps|, d, ch);
             i < |atC| && i' < |atC| && j < |atD| && j' < |atD| && atC[i] == atD[j] && atC[i'] == atD[j']
    ensures i < i' <==> j < j'
  {
    BroadcastsAreInOrder(steps, |steps|, c, ch);
    BroadcastsAreInOrder(steps, |steps|, d, ch);
  }

  // ----- Null keys -----

  predicate HasNull(t: Tables, ch: string) {
    ch in t.channels && Null in t.channels[ch]
  }

  /** The channel of a well-formed SUBSCRIBE by a connection that has been
      removed from the table. */
  function GhostChannel(w: World, s: Step): Option<string> {
    if !Enabled(w, s) || !s.Process? || s.conn in w.tables.active || JavaParse(s.message).Err? then None
    else
      var f := JavaParse(s.message).value;
      if f.command == "SUBSCRIBE" && HeaderNumber(Header(f, "id")).Ok? then Header(f, "destination") else None
  }

  /** An accepted SEND returns normally exactly when its channel has no null
      key, and reaches every subscriber exactly when a null key is missing or
      comes last. */
  lemma AllAreReachedIff(w: World, s: Step, ch: string)
    requires AcceptedOn(w, s) == Some(ch)
    ensures ch in w.tables.channels && ch in s.orders.subscribers
    ensures Called(w, s).thrown.None? <==> !HasNull(w.tables, ch)
    ensures var order := s.orders.subscribers[ch];
            (forall c | Conn(c) in w.tables.channels[ch] :: Reaches(w, s, c, ch)) <==>
            (!HasNull(w.tables, ch) || order[|order| - 1] == Null)
  {
    hide Called, AcceptedOn, Reached, Deliveries, JavaParse, IsOrder;
    AcceptedSendReaches(w, s, ch);
    OrderIsThere(w, s, ch);
    var order := s.orders.subscribers[ch];
    LastOrNoNull(order, w.tables.channels[ch].Keys);
  }

  lemma OrderIsThere(w: World, s: Step, ch: string)
    requires AcceptedOn(w, s) == Some(ch)
    ensures ch in w.tables.channels && ch in s.orders.subscribers
    ensures IsOrder(s.orders.subscribers[ch], w.tables.channels[ch].Keys)
  {
    hide JavaParse, IsOrder;
  }

  /** All connections come before a null key exactly when there is none or it
      comes last. */
  lemma LastOrNoNull(order: seq<Handler>, keys: set<Handler>)
    requires IsOrder(order, keys)
    ensures (forall c | Conn(c) in keys :: c in Reached(order)) <==> Null !in keys || order[|order| - 1] == Null
  {
    var r := Reached(order);
    if Null !in order || order[|order| - 1] == Null {
      forall c | Conn(c) in keys
        ensures c in r
      {
        var i :| 0 <= i < |order| && order[i] == Conn(c);
        assert i < |r|;
        assert r[i] == c;
      }
    } else {
      var last := order[|order| - 1];
      assert last in order && last.Conn?;
      assert last.id !in r;
      assert Conn(last.id) in keys;
    }
  }

  /** No channel gets a null key. */
  ghost predicate NoNewNull(t: Tables, t': Tables) {
    forall ch | HasNull(t', ch) :: HasNull(t, ch)
  }

  lemma RejectedNoNull(t: Tables, p: Proto, frame: Frame, o: Orders)
    requires OrdersFit(t, o)
    ensures OrdersFit(Answer(t, p, frame).tables, o)
    ensures NoNewNull(t, Answer(t, p, frame).tables)
    ensures NoNewNull(t, Rejected(t, p, frame, o).tables)
  {
    var one := Answer(t, p, frame).tables;
    if Answer(t, p, frame).thrown.None? {
      DisconnectedMeans(one.(closed := one.closed + {p.connectionID}), p.connectionID, o);
    }
  }

  lemma RejectedTwiceNoNull(t: Tables, p: Proto, frame: Frame, o: Orders)
    requires OrdersFit(t, o)
    ensures OrdersFit(Answer(t, p, frame).tables, o)
    ensures NoNewNull(t, Answer(t, p, frame).tables)
    ensures NoNewNull(t, Rejected(Answer(t, p, frame).tables, p, frame, o).tables)
  {
    RejectedNoNull(t, p, frame, o);
    hide Rejected, Answer, OrdersFit;
    RejectedNoNull(Answer(t, p, frame).tables, p, frame, o);
  }

  lemma AnswerNoNull(t: Tables, p: Proto, frame: Frame)
    ensures Answer(t, p, frame).tables.channels == t.channels
  {
  }

  lemma UnsubscribeNoNull(t: Tables, p: Proto, f: Frame, o: Orders)
    requires OrdersFit(t, o)
    ensures NoNewNull(t, OnUnsubscribe(t, p, f, o).tables)
  {
    hide Rejected, Answer;
    if HeaderNumber(Header(f, "id")).Ok? {
      var h, subId := Lookup(t, p.connectionID), HeaderNumber(Header(f, "id")).value;
      var ch := UnsubscribedMeans(t, subId, h, o.channels);
      var (t', done) := Unsubscribed(t, subId, h, o.channels);
      assert NoNewNull(t, t');
      if done {
        AnswerNoNull(t', p, ReceiptFrame(Header(f, "receipt")));
      } else {
        RejectedNoNull(t, p, ErrorFrame(map[
          "receipt-id" := Printed(Header(f, "receipt")),
          "message" := "The user isn't subscribed with that number: " + Printed(Header(f, "id"))]), o);
      }
    }
  }

  /** Only the null handler can put a null key on a channel. */
  lemma SubscribeMayAddNull(t: Tables, p: Proto, f: Frame, o: Orders, ch: string)
    requires OrdersFit(t, o) && !HasNull(t, ch)
    ensures HasNull(OnSubscribe(t, p, f, o).tables, ch) <==>
            && Lookup(t, p.connectionID) == Null && HeaderNumber(Header(f, "id")).Ok?
            && Header(f, "destination") == Some(ch)
  {
    hide Rejected, Answer;
    if HeaderNumber(Header(f, "id")).Ok? && Header(f, "destination").Some? {
      var channel, h := Header(f, "destination").value, Lookup(t, p.connectionID);
      var (t', done) := Subscribed(t, channel, HeaderNumber(Header(f, "id")).value, h);
      if done {
        assert HasNull(t', ch) <==> h == Null && channel == ch;
        AnswerNoNull(t', p, ReceiptFrame(Header(f, "receipt")));
      } else {
        assert h in t.channels[channel];
        RejectedNoNull(t, p, ErrorFrame(map[
          "receipt-id" := Printed(Header(f, "receipt")),
          "message" := "The user already subscribed to channel: " + channel]), o);
      }
    }
  }

  lemma ConnectNoNull(t: Tables, p: Proto, f: Frame, o: Orders)
    requires OrdersFit(t, o)
    ensures NoNewNull(t, OnConnect(t, p, f, o).tables)
  {
    hide Rejected, OrdersFit;
    RejectedNoNull(t, p, ErrorFrame(map["message" := "User is already connected"]), o);
    RejectedTwiceNoNull(t, p, ErrorFrame(map["message" := "Wrong password"]), o);
  }

  lemma DisconnectNoNull(t: Tables, p: Proto, f: Frame, o: Orders)
    requires OrdersFit(t, o)
    ensures NoNewNull(t, OnDisconnect(t, p, f, o).tables)
  {
    DisconnectedMeans(Answer(t, p, ReceiptFrame(Header(f, "receipt"))).tables, p.connectionID, o);
  }

  lemma SendNoNull(t: Tables, p: Proto, f: Frame, o: Orders)
    requires OrdersFit(t, o)
    ensures NoNewNull(t, OnSend(t, p, f, o).tables)
  {
    hide Rejected;
    if "destination" in f.headers {
      var channel := f.headers["destination"];
      var subId := UserSubId(t, channel, p.connectionID);
      if subId == -1 {
        RejectedTwiceNoNull(t, p, ErrorFrame(map["message" := "The user isn't subscribed to channel: " + channel]), o);
      } else {
        BroadcastReaches(t, o.subscribers[channel], MessageFrame(subId, p.messageID, channel, f.body));
      }
    }
  }

  lemma HandledMayAddNull(t: Tables, p: Proto, f: Frame, o: Orders, ch: string)
    requires OrdersFit(t, o) && !HasNull(t, ch)
    ensures HasNull(Handled(t, p, f, o).tables, ch) <==>
            f.command == "SUBSCRIBE" && Lookup(t, p.connectionID) == Null && HeaderNumber(Header(f, "id")).Ok?
            && Header(f, "destination") == Some(ch)
  {
    var p' := p.(shouldTerminate := f.command == "DISCONNECT");
    ConnectNoNull(t, p', f, o);
    DisconnectNoNull(t, p', f, o);
    UnsubscribeNoNull(t, p', f, o);
    SubscribeMayAddNull(t, p', f, o, ch);
    SendNoNull(t, p', f, o);
    hide OnConnect, OnDisconnect, OnUnsubscribe, OnSubscribe, OnSend, OrdersFit, HasNull, HeaderNumber, Header,
         Lookup;
  }

  /** A channel without a null key gets one exactly from a SUBSCRIBE to it by a
      connection that has been removed. */
  lemma NullKeyAppearsIff(w: World, s: Step, ch: string)
    requires Inv(w) && !HasNull(w.tables, ch)
    ensures HasNull(Apply(w, s).tables, ch) <==> GhostChannel(w, s) == Some(ch)
  {
    hide Handled, JavaParse, HeaderNumber;
    if Enabled(w, s) && s.Process? {
      assert Lookup(w.tables, s.conn) == Null <==> s.conn !in w.tables.active;
      if JavaParse(s.message).Ok? {
        var p := w.protos[s.conn].(connectionID := s.conn);
        HandledMayAddNull(w.tables, p, JavaParse(s.message).value, s.orders, ch);
      }
    }
  }

  /** No removed connection subscribes. */
  predicate NoGhosts(steps: seq<Step>) {
    forall k | 0 <= k < |steps| :: GhostChannel(At(steps, k), steps[k]).None?
  }

  lemma {:induction false} RunsWithoutGhostsHaveNoNullKey(steps: seq<Step>, n: nat, ch: string)
    requires NoGhosts(steps) && n <= |steps|
    ensures !HasNull(At(steps, n).tables, ch)
  {
    hide GhostChannel, Apply;
    if n > 0 {
      RunsWithoutGhostsHaveNoNullKey(steps, n - 1, ch);
      RunKeeps(steps, n - 1);
      NullKeyAppearsIff(At(steps, n - 1), steps[n - 1], ch);
    }
  }

  /** As long as no removed connection subscribes, a SEND reaches exactly the
      subscribers, and returns normally. */
  lemma EverySubscriberHears(steps: seq<Step>, k: nat, ch: string)
    requires NoGhosts(steps) && k < |steps|
    requires AcceptedOn(At(steps, k), steps[k]) == Some(ch)
    ensures ch in At(steps, k).tables.channels
    ensures Called(At(steps, k), steps[k]).thrown.None?
    ensures forall c :: Reaches(At(steps, k), steps[k], c, ch) <==> Conn(c) in At(steps, k).tables.channels[ch]
  {
    RunsWithoutGhostsHaveNoNullKey(steps, k, ch);
    hide NoGhosts, At;
    var w, s := At(steps, k), steps[k];
    AllAreReachedIff(w, s, ch);
    ReachedAreSubscribed(w, s, ch);
    hide AcceptedOn, Called, Reaches;
    forall c
      ensures Reaches(w, s, c, ch) <==> Conn(c) in w.tables.channels[ch]
    {
    }
  }

  lemma ReachedAreSubscribed(w: World, s: Step, ch: string)
    requires AcceptedOn(w, s) == Some(ch)
    ensures ch in w.tables.channels
    ensures forall c | Reaches(w, s, c, ch) :: Conn(c) in w.tables.channels[ch]
  {
    AcceptedSendReaches(w, s, ch);
    hide Called;
  }
}
