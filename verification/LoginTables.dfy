/** Who is registered and who is logged in, over a whole run of the server. */
module LoginTables {
  import opened Text
  import opened StompFrames
  import opened ConnectionTables
  import opened ServerProtocol
  import opened ServerRuns

  /** The step is a CONNECT with these headers. */
  predicate Asks(w: World, s: Step, login: string, passcode: Option<string>) {
    && Enabled(w, s) && s.Process? && JavaParse(s.message).Ok?
    && var f := JavaParse(s.message).value;
       f.command == "CONNECT" && Header(f, "login") == Some(login) && Header(f, "passcode") == passcode
  }

  /** A login may be taken when nobody holds it and the passcode is its own, or
      is its first. */
  predicate MayConnect(t: Tables, login: string, passcode: Option<string>) {
    && login !in t.loggedIn
    && passcode.Some?
    && (login in t.users ==> t.users[login] == passcode.value)
  }

  /** Logins are only given up, and only those of this connection. */
  predicate LogsOutOnly(before: map<string, int>, after: map<string, int>, id: int) {
    && (forall l | l in after :: l in before && after[l] == before[l])
    && (forall l | l in before :: l in after || before[l] == id)
  }

  lemma DisconnectLogsOut(t: Tables, id: int, o: Orders)
    requires OrdersFit(t, o)
    ensures var t' := Disconnected(t, id, o).0;
            t'.users == t.users && t'.sent == t.sent && LogsOutOnly(t.loggedIn, t'.loggedIn, id)
  {
    DisconnectedMeans(t, id, o);
    var login := LoggedOutMeans(t.loggedIn, id, o.logins);
  }

  /** Answers and rejections log out the connection at most. */
  lemma RejectedLogsOut(t: Tables, p: Proto, frame: Frame, o: Orders)
    requires OrdersFit(t, o)
    ensures var one := Answer(t, p, frame).tables;
            && one == t.(sent := one.sent)
            && var h := Lookup(t, p.connectionID);
               one.sent == t.sent + (if h.Conn? then [Delivery(h.id, frame)] else [])
    ensures var t' := Rejected(t, p, frame, o).tables;
            && t'.users == t.users && LogsOutOnly(t.loggedIn, t'.loggedIn, p.connectionID)
            && t'.sent == Answer(t, p, frame).tables.sent
  {
    var one := Answer(t, p, frame).tables;
    if Answer(t, p, frame).thrown.None? {
      DisconnectLogsOut(one.(closed := one.closed + {p.connectionID}), p.connectionID, o);
    } else {
      assert t.sent + [] == t.sent;
    }
  }

  /** What one call may do: register logins, and take or give up logins for
      its own connection. */
  predicate LoginsMove(t: Tables, t': Tables, id: int) {
    && (forall l | l in t.users :: l in t'.users && t'.users[l] == t.users[l])
    && (forall l | l in t.loggedIn :: if l in t'.loggedIn then t'.loggedIn[l] == t.loggedIn[l] else t.loggedIn[l] == id)
    && (forall l | l in t'.loggedIn && l !in t.loggedIn :: t'.loggedIn[l] == id)
  }

  lemma OnConnectMoves(t: Tables, p: Proto, f: Frame, o: Orders)
    requires OrdersFit(t, o)
    ensures LoginsMove(t, OnConnect(t, p, f, o).tables, p.connectionID)
  {
    hide Rejected, OrdersFit;
    if Header(f, "login").Some? {
      var login := Header(f, "login").value;
      if login in t.loggedIn {
        RejectedLogsOut(t, p, ErrorFrame(map["message" := "User is already connected"]), o);
      } else if login in t.users && Header(f, "passcode") != Some(t.users[login]) {
        var error := ErrorFrame(map["message" := "Wrong password"]);
        RejectedLogsOut(t, p, error, o);
        FitsStill(t, p, error, o);
        RejectedLogsOut(Answer(t, p, error).tables, p, error, o);
      }
    }
  }

  lemma FitsStill(t: Tables, p: Proto, frame: Frame, o: Orders)
    requires OrdersFit(t, o)
    ensures OrdersFit(Answer(t, p, frame).tables, o)
  {
  }

  lemma OnDisconnectMoves(t: Tables, p: Proto, f: Frame, o: Orders)
    requires OrdersFit(t, o)
    ensures LoginsMove(t, OnDisconnect(t, p, f, o).tables, p.connectionID)
  {
    DisconnectLogsOut(Answer(t, p, ReceiptFrame(Header(f, "receipt"))).tables, p.connectionID, o);
  }

  lemma OnUnsubscribeMoves(t: Tables, p: Proto, f: Frame, o: Orders)
    requires OrdersFit(t, o)
    ensures LoginsMove(t, OnUnsubscribe(t, p, f, o).tables, p.connectionID)
  {
    if HeaderNumber(Header(f, "id")).Ok? {
      var ch := UnsubscribedMeans(t, HeaderNumber(Header(f, "id")).value, Lookup(t, p.connectionID), o.channels);
      RejectedLogsOut(t, p, ErrorFrame(map[
        "receipt-id" := Printed(Header(f, "receipt")),
        "message" := "The user isn't subscribed with that number: " + Printed(Header(f, "id"))]), o);
    }
  }

  lemma OnSubscribeMoves(t: Tables, p: Proto, f: Frame, o: Orders)
    requires OrdersFit(t, o)
    ensures LoginsMove(t, OnSubscribe(t, p, f, o).tables, p.connectionID)
  {
    if Header(f, "destination").Some? {
      RejectedLogsOut(t, p, ErrorFrame(map[
        "receipt-id" := Printed(Header(f, "receipt")),
        "message" := "The user already subscribed to channel: " + Header(f, "destination").value]), o);
    }
  }

  lemma OnSendMoves(t: Tables, p: Proto, f: Frame, o: Orders)
    requires OrdersFit(t, o)
    ensures LoginsMove(t, OnSend(t, p, f, o).tables, p.connectionID)
  {
    if "destination" in f.headers {
      var channel := f.headers["destination"];
      var subId := UserSubId(t, channel, p.connectionID);
      if subId == -1 {
        var error := ErrorFrame(map["message" := "The user isn't subscribed to channel: " + channel]);
        RejectedLogsOut(t, p, error, o);
        RejectedLogsOut(Answer(t, p, error).tables, p, error, o);
      } else {
        BroadcastReaches(t, o.subscribers[channel], MessageFrame(subId, p.messageID, channel, f.body));
      }
    }
  }

  lemma HandledMoves(t: Tables, p: Proto, f: Frame, o: Orders)
    requires OrdersFit(t, o)
    ensures LoginsMove(t, Handled(t, p, f, o).tables, p.connectionID)
  {
    hide OnConnect, OnDisconnect, OnUnsubscribe, OnSubscribe, OnSend, OrdersFit;
    var p' := p.(shouldTerminate := f.command == "DISCONNECT");
    OnConnectMoves(t, p', f, o);
    OnDisconnectMoves(t, p', f, o);
    OnUnsubscribeMoves(t, p', f, o);
    OnSubscribeMoves(t, p', f, o);
    OnSendMoves(t, p', f, o);
  }

  lemma StepMoves(w: World, s: Step)
    ensures var t, t' := w.tables, Apply(w, s).tables;
            if s.Process? then LoginsMove(t, t', s.conn) else t'.users == t.users && t'.loggedIn == t.loggedIn
  {
    hide Handled;
    if Enabled(w, s) && s.Process? && JavaParse(s.message).Ok? {
      HandledMoves(w.tables, w.protos[s.conn].(connectionID := s.conn), JavaParse(s.message).value, s.orders);
    }
  }

  // ----- Runs -----

  /** Once registered, a login keeps its passcode for ever. */
  lemma {:induction false} PasscodesNeverChange(steps: seq<Step>, m: nat, n: nat, login: string)
    requires m <= n <= |steps| && login in At(steps, m).tables.users
    ensures login in At(steps, n).tables.users
    ensures At(steps, n).tables.users[login] == At(steps, m).tables.users[login]
  {
    hide Apply;
    if m < n {
      PasscodesNeverChange(steps, m, n - 1, login);
      StepMoves(At(steps, n - 1), steps[n - 1]);
    }
  }

  /** Whoever is logged in is registered, and is a connection that was accepted. */
  lemma HoldersAreRegistered(steps: seq<Step>, n: nat, login: string)
    requires n <= |steps| && login in At(steps, n).tables.loggedIn
    ensures login in At(steps, n).tables.users
    ensures 0 <= At(steps, n).tables.loggedIn[login] < At(steps, n).tables.counter
  {
    hide At;
    RunKeeps(steps, n);
  }

  /** A login leaves its holder only in a step of the holder, and then it is
      free; nobody takes it over. */
  lemma OnlyTheHolderLetsGo(steps: seq<Step>, n: nat, login: string)
    requires n < |steps| && login in At(steps, n).tables.loggedIn
    ensures var holder, after := At(steps, n).tables.loggedIn[login], At(steps, n + 1).tables.loggedIn;
            if login in after then after[login] == holder
            else steps[n].Process? && steps[n].conn == holder
  {
    hide Apply;
    StepMoves(At(steps, n), steps[n]);
  }

  // ----- CONNECT -----

  /** What was sent in a step. */
  function SentIn(w: World, s: Step): seq<Delivery>
    requires w.tables.sent <= Apply(w, s).tables.sent
  {
    Apply(w, s).tables.sent[|w.tables.sent|..]
  }

  /** A connection that asks for a login is answered CONNECTED exactly when it
      may have the login and has not been removed.  It holds the login exactly
      when it may have it, answered or not.  Otherwise a live connection is sent
      an ERROR, or, without a passcode for a new login, the call throws. */
  lemma ConnectedIff(w: World, s: Step, login: string, passcode: Option<string>)
    requires Inv(w) && Asks(w, s, login, passcode)
    ensures w.tables.sent <= Apply(w, s).tables.sent
    ensures SentIn(w, s) == [Delivery(s.conn, CONNECTED)] <==>
            MayConnect(w.tables, login, passcode) && s.conn in w.tables.active
    ensures MayConnect(w.tables, login, passcode) ==>
              && Apply(w, s).tables.loggedIn == w.tables.loggedIn[login := s.conn]
              && Apply(w, s).tables.users == w.tables.users[login := passcode.value]
    ensures !MayConnect(w.tables, login, passcode) ==>
              && Apply(w, s).tables.users == w.tables.users
              && LogsOutOnly(w.tables.loggedIn, Apply(w, s).tables.loggedIn, s.conn)
              && (if (login !in w.tables.loggedIn && login !in w.tables.users) || s.conn !in w.tables.active then
                    Called(w, s).thrown == Some(NullPointer) && SentIn(w, s) == []
                  else
                    |SentIn(w, s)| > 0 && forall i | 0 <= i < |SentIn(w, s)| ::
                      SentIn(w, s)[i].to == s.conn && SentIn(w, s)[i].frame.command == "ERROR")
  {
    var t, o, f := w.tables, s.orders, JavaParse(s.message).value;
    var p := w.protos[s.conn].(connectionID := s.conn, shouldTerminate := false);
    ConnectIsCalled(w, s, login, passcode);
    hide Handled, ErrorFrame, Header;
    assert Lookup(t, s.conn) == if s.conn in t.active then Conn(s.conn) else Null;
    NamesAreThree();
    hide Called, OnConnect, JavaParse, MayConnect, LogsOutOnly, Inv;
    if MayConnect(t, login, passcode) {
      Accepted(t, p, f, o, login, passcode);
      assert SentIn(w, s) == if s.conn in t.active then [Delivery(s.conn, CONNECTED)] else [];
    } else {
      var n := NotAccepted(t, p, f, o, login, passcode);
      assert SentIn(w, s) == Copies(Delivery(s.conn, ErrorFrame(map["message" := "User is already connected"])), n)
          || SentIn(w, s) == Copies(Delivery(s.conn, ErrorFrame(map["message" := "Wrong password"])), n);
    }
  }

  lemma ConnectIsCalled(w: World, s: Step, login: string, passcode: Option<string>)
    requires Asks(w, s, login, passcode)
    ensures Called(w, s) == OnConnect(w.tables, w.protos[s.conn].(connectionID := s.conn, shouldTerminate := false),
                                      JavaParse(s.message).value, s.orders)
  {
    hide JavaParse, OnConnect, OrdersFit;
  }

  lemma NamesAreThree()
    ensures CONNECTED.command != "ERROR"
  {
    var c, e := "CONNECTED", "ERROR";
    assert |c| != |e|;
  }

  function Copies(d: Delivery, n: nat): seq<Delivery> {
    if n == 0 then [] else if n == 1 then [d] else [d, d]
  }

  /** A login that may be taken. */
  lemma Accepted(t: Tables, p: Proto, f: Frame, o: Orders, login: string, passcode: Option<string>)
    requires OrdersFit(t, o) && Header(f, "login") == Some(login) && Header(f, "passcode") == passcode
    requires Lookup(t, p.connectionID) == if p.connectionID in t.active then Conn(p.connectionID) else Null
    requires MayConnect(t, login, passcode)
    ensures var e := OnConnect(t, p, f, o);
            && e.tables.users == t.users[login := passcode.value]
            && e.tables.loggedIn == t.loggedIn[login := p.connectionID]
            && e.tables.sent ==
               t.sent + if p.connectionID in t.active then [Delivery(p.connectionID, CONNECTED)] else []
  {
    hide Header, Rejected, OrdersFit;
    assert t.sent + [] == t.sent;
    assert login in t.users ==> t.users[login := passcode.value] == t.users;
  }

  /** A login that may not be taken. */
  lemma NotAccepted(t: Tables, p: Proto, f: Frame, o: Orders, login: string, passcode: Option<string>) returns (n: nat)
    requires OrdersFit(t, o) && Header(f, "login") == Some(login) && Header(f, "passcode") == passcode
    requires Lookup(t, p.connectionID) == if p.connectionID in t.active then Conn(p.connectionID) else Null
    requires !MayConnect(t, login, passcode)
    ensures var e := OnConnect(t, p, f, o);
            && e.tables.users == t.users && LogsOutOnly(t.loggedIn, e.tables.loggedIn, p.connectionID)
            && n <= 2
            && (if (login !in t.loggedIn && login !in t.users) || p.connectionID !in t.active then
                  n == 0 && e.thrown == Some(NullPointer)
                else n > 0)
    ensures var taken := ErrorFrame(map["message" := "User is already connected"]);
            var wrong := ErrorFrame(map["message" := "Wrong password"]);
            || OnConnect(t, p, f, o).tables.sent == t.sent + Copies(Delivery(p.connectionID, taken), n)
            || OnConnect(t, p, f, o).tables.sent == t.sent + Copies(Delivery(p.connectionID, wrong), n)
  {
    hide Header, OrdersFit;
    assert t.sent + [] == t.sent;
    n := 0;
    if login in t.loggedIn {
      var error := ErrorFrame(map["message" := "User is already connected"]);
      RejectedLogsOut(t, p, error, o);
      hide Connected, ErrorFrame;
      n := if p.connectionID in t.active then 1 else 0;
    } else if login in t.users {
      var error := ErrorFrame(map["message" := "Wrong password"]);
      RejectedLogsOut(t, p, error, o);
      FitsStill(t, p, error, o);
      RejectedLogsOut(Answer(t, p, error).tables, p, error, o);
      hide ErrorFrame;
      if p.connectionID in t.active {
        var d := Delivery(p.connectionID, error);
        assert t.sent + [d] + [d] == t.sent + [d, d];
        n := 2;
      }
    }
  }

  // ----- DISCONNECT -----

  predicate Leaves(w: World, s: Step) {
    && Enabled(w, s) && s.Process? && JavaParse(s.message).Ok?
    && JavaParse(s.message).value.command == "DISCONNECT"
    && s.conn in w.tables.active
  }

  predicate HoldsNothing(t: Tables, id: int) {
    forall l | l in t.loggedIn :: t.loggedIn[l] != id
  }

  predicate HoldsOneAtMost(t: Tables, id: int) {
    forall l, m | l in t.loggedIn && m in t.loggedIn && t.loggedIn[l] == id && t.loggedIn[m] == id :: l == m
  }

  predicate SubscribedTo(t: Tables, id: int, ch: string) {
    ch in t.channels && Conn(id) in t.channels[ch]
  }

  lemma LeavesByDisconnecting(w: World, s: Step)
    requires Inv(w) && Leaves(w, s)
    ensures OrdersFit(w.tables, s.orders)
    ensures var t' := Apply(w, s).tables;
            && t'.loggedIn == LoggedOut(w.tables.loggedIn, s.conn, s.orders.logins)
            && OnlyDropped(w.tables.(sent := t'.sent, loggedIn := t'.loggedIn), t', Lookup(w.tables, w.tables.counter))
  {
    var f := JavaParse(s.message).value;
    var p := w.protos[s.conn].(connectionID := s.conn, shouldTerminate := true);
    assert f.command == "DISCONNECT";
    assert Called(w, s) == OnDisconnect(w.tables, p, f, s.orders);
    DisconnectedMeans(Answer(w.tables, p, ReceiptFrame(Header(f, "receipt"))).tables, s.conn, s.orders);
  }

  /** DISCONNECT gives up one login: all of them exactly when there is at most one. */
  lemma DisconnectFreesLogins(w: World, s: Step)
    requires Inv(w) && Leaves(w, s)
    ensures HoldsNothing(Apply(w, s).tables, s.conn) <==> HoldsOneAtMost(w.tables, s.conn)
  {
    hide Apply;
    LeavesByDisconnecting(w, s);
    var login := LoggedOutMeans(w.tables.loggedIn, s.conn, s.orders.logins);
    var before, after := w.tables.loggedIn, Apply(w, s).tables.loggedIn;
    if after != before {
      forall l | l in before && l != login
        ensures l in after && after[l] == before[l]
      {
      }
    }
  }

  /** DISCONNECT looks its handler up under the counter, so that it cancels
      every subscription of the connection exactly when there is none. */
  lemma DisconnectCancelsNothing(w: World, s: Step)
    requires Inv(w) && Leaves(w, s)
    ensures forall ch :: SubscribedTo(Apply(w, s).tables, s.conn, ch) <==> SubscribedTo(w.tables, s.conn, ch)
    ensures (forall ch :: !SubscribedTo(Apply(w, s).tables, s.conn, ch)) <==>
            (forall ch :: !SubscribedTo(w.tables, s.conn, ch))
  {
    hide Apply;
    LeavesByDisconnecting(w, s);
    assert Lookup(w.tables, w.tables.counter) != Conn(s.conn);
  }
}
