/** Sessions in which an exception of one call makes the server miss what the
    client has asked for. */
module SessionShortcomings {
  import opened Text
  import opened StompFrames
  import opened Splitter
  import opened RoundTrips
  import opened Decimal
  import opened Reports
  import opened ConnectionTables
  import opened ServerProtocol
  import SR = ServerRuns
  import opened ServerView
  import opened BroadcastHistory
  import opened ClientSession
  import opened OneCall
  import opened OwnRequests
  import opened SessionRuns
  import opened SessionInvariant
  import opened LoginTables
  import opened SessionTheorems
  import opened Shortcomings

  /** A client that is at rest: what it has asked for has been processed, both
      sides agree, and there is room for more numbers. */
  ghost predicate AtRest(s: Session) {
    && Inv(s) && Clear(s) && |s.fates| == |s.asked|
    && !s.client.terminateKeyboard && s.failed.None? && s.client.receiptNumber + 4 <= INT_MAX
       && s.client.subscriptionId + 2 <= INT_MAX
  }

  /** The client has reported one event. */
  lemma Reports1(s: Session, user: string, channel: string, e: Event)
    requires AtRest(s) && channel in s.client.subscriptions && Reportable(e) && Carried(user, [e])
    ensures var a := SessionRuns.Report(user, channel, [e], [true]);
            var s' := SessionRuns.Apply(s, a);
            && SessionRuns.Enabled(s, a) && Inv(s') && Clear(s')
            && s' == s.(asked := s.asked + [Send(channel, ReportBody(user, e))])
  {
    hide Inv, WireText, CppParse, SR.Apply, ReportBody, AfterAnswer, AfterJoin, AfterExit, AfterLogout;
    ActKeeps(s, SessionRuns.Report(user, channel, [e], [true]));
    assert [e][..0] == [] && [true][..0] == [];
    assert ReportsOf(user, channel, [], []) == [];
    assert [] + ReportOf(user, channel, e, true) == ReportOf(user, channel, e, true);
  }

  /** The client has joined one more channel. */
  lemma JoinsOne(s: Session, channel: string)
    requires Inv(s) && !s.client.terminateKeyboard && s.failed.None? && HasRoom(s.client) && Plain(channel)
             && channel !in s.client.subscriptions
    ensures var a := SessionRuns.Join(channel, true);
            var s' := SessionRuns.Apply(s, a);
            && SessionRuns.Enabled(s, a) && Inv(s') && (Clear(s') <==> Clear(s))
            && s'.asked == s.asked + [Subscribe(channel, s.client.subscriptionId, s.client.receiptNumber)]
            && s' == s.(asked := s'.asked, client := s'.client)
            && s'.client.subscriptions == s.client.subscriptions[channel := s.client.subscriptionId]
            && s'.client.receiptNumber == s.client.receiptNumber + 1 && !s'.client.terminateKeyboard && s'.failed.None?
            && s'.client.subscriptionId == s.client.subscriptionId + 1
  {
    hide Inv, WireText, CppParse, SR.Apply, ToString, AfterAnswer, AfterExit, AfterReport, AfterLogout;
    ActKeeps(s, SessionRuns.Join(channel, true));
  }

  /** The client has logged out. */
  lemma LogsOut(s: Session)
    requires Inv(s) && !s.client.terminateKeyboard && s.failed.None? && HasRoom(s.client)
    ensures var a := SessionRuns.Logout(true);
            var s' := SessionRuns.Apply(s, a);
            && SessionRuns.Enabled(s, a) && Inv(s')
            && s'.asked == s.asked + [Disconnect(s.client.receiptNumber)]
            && s' == s.(asked := s'.asked, client := s'.client)
            && s'.client.subscriptions == s.client.subscriptions
  {
    hide Inv, WireText, CppParse, SR.Apply, ToString, AfterJoin, AfterExit, AfterReport, AfterAnswer;
    ActKeeps(s, SessionRuns.Logout(true));
  }

  /** The next frame can be taken, with any end of its chunk. */
  lemma MayArrive(s: Session, drop: nat, cut: nat) returns (a: Act)
    requires Inv(s) && HasNext(s) && MayEndAt(s.asked, |s.fates| + 1, drop, cut)
    ensures a.Arrive? && SessionRuns.Enabled(s, a) && a.drop == drop && a.cut == cut
  {
    hide Inv, HasNext, MayEndAt, OrdersFit;
    var o := SomeOrders(s.server.tables);
    a := Arrive(o, drop, cut);
    MeIsThere(s);
  }

  lemma MeIsThere(s: Session)
    requires Inv(s)
    ensures s.me in s.server.protos
  {
    hide Earned, AskedInv, Consistent, HasTorn, View, Sane;
  }

  /** A SEND meets a null key, and what was behind it in its chunk is lost. */
  lemma SendLoses(s: Session, a: Act)
    requires Inv(s) && Clear(s) && Arrives(s, a) && Next(s).Send? && HasNull(s.server.tables, Next(s).channel)
    ensures var s' := SessionRuns.Apply(s, a);
            && Inv(s') && SessionRuns.Called(s, a).thrown.Some?
            && s' == s.(server := s'.server, fates := s.fates + [Whole] + Dropping(a.drop), cut := a.cut)
            && View(s'.server.tables, s.me) == View(s.server.tables, s.me) && Sane(View(s.server.tables, s.me))
            && s.me in s'.server.tables.active
            && s.server.tables.sent <= s'.server.tables.sent
  {
    ActKeeps(s, a);
    ArriveIs(s, a);
    ArriveAgrees(s, a);
    hide SessionRuns.Apply, SessionRuns.Called, SR.Apply, WireText, Earned, AskedInv, ClientInv, View, OwnAnswers,
         HasNull;
  }

  /** A whole request that comes alone. */
  lemma ArrivesWhole(s: Session, a: Act)
    requires Arrives(s, a) && s.cut == 0 && a.drop == 0 && a.cut == 0
    ensures SessionRuns.Apply(s, a) ==
            s.(server := SR.Apply(s.server, NextStep(s, a.orders)), fates := s.fates + [Whole])
  {
    ArriveIs(s, a);
    assert Dropping(0) == [] && s.fates + [Whole] + [] == s.fates + [Whole];
    hide SessionRuns.Apply, SR.Apply, SR.Called, WireText, SessionRuns.Enabled, NextStep;
  }

  /** DISCONNECT is served in every state in which the connection is there. */
  lemma LogoutIsServed(s: Session, a: Act)
    requires Inv(s) && s.cut == 0 && Arrives(s, a) && Next(s).Disconnect?
    requires s.me in s.server.tables.active && Sane(View(s.server.tables, s.me))
    ensures Served(s.server.tables, SR.Apply(s.server, NextStep(s, a.orders)).tables, s.me, Next(s))
  {
    var r := Next(s);
    assert Filed(s.client, r);
    assert WireText(r)[0..] == WireText(r);
    hide SR.Called, WireText, Earned, AskedInv, ClientInv, View, Sane, Served, TurnedDown;
    RequestIsServed(s.server, s.me, r, a.orders);
  }

  lemma DisconnectIsFiled(c: Client, asked: seq<Request>, r: Request)
    requires AskedInv(c, asked) && r in asked && r.Disconnect?
    ensures ToString(r.receipt) in c.receipts && c.receipts[ToString(r.receipt)] == "DISCONNECT"
  {
    var k :| 0 <= k < |asked| && asked[k] == r;
    assert Filed(c, asked[k]);
    hide ToString;
  }

  lemma ServedIsInMail(s: Session, t: Tables, r: Request) returns (i: nat)
    requires Served(t, s.server.tables, s.me, r) && AskedInv(s.client, s.asked) && r in s.asked && r.Disconnect?
    ensures i < |Mail(s)| && IsLogoutReceipt(s, Mail(s)[i])
  {
    DisconnectIsFiled(s.client, s.asked, r);
    hide Inv, AskedInv, ToString, View, ErrorSince;
    var f := ReceiptFrame(Some(ToString(r.receipt)));
    assert f in OwnAnswers(s.server.tables.sent, s.me);
    RepliedIn(Mail(s), f);
    i :| 0 <= i < |Mail(s)| && Mail(s)[i] == f;
  }

  /** DISCONNECT comes, and its RECEIPT goes back. */
  lemma LogoutIsAnswered(s: Session, a: Act) returns (i: nat)
    requires Inv(s) && s.cut == 0 && Arrives(s, a) && a.drop == 0 && a.cut == 0 && Next(s).Disconnect?
    requires s.me in s.server.tables.active && Sane(View(s.server.tables, s.me))
    ensures var s' := SessionRuns.Apply(s, a);
            && Inv(s') && s' == s.(server := s'.server, fates := s.fates + [Whole])
            && View(s'.server.tables, s.me) == View(s.server.tables, s.me)
            && i < |Mail(s')| && IsLogoutReceipt(s', Mail(s')[i])
  {
    LogoutIsServed(s, a);
    hide Inv, SessionRuns.Apply, SR.Apply, WireText, View, Sane, OwnAnswers, IsLogoutReceipt, Mail, ErrorSince,
         Replied, Reply, ToString, Called;
    ActKeeps(s, a);
    ArrivesWhole(s, a);
    var s' := SessionRuns.Apply(s, a);
    HasAskedInv(s');
    i := ServedIsInMail(s', s.server.tables, Next(s));
  }

  /** The client reports one event on a channel and joins another one. */
  lemma ReportsAndJoins(s: Session, user: string, channel: string, e: Event, other: string)
    requires AtRest(s) && channel in s.client.subscriptions && Reportable(e) && Carried(user, [e])
    requires Plain(other) && other !in s.client.subscriptions
    ensures var a, b := SessionRuns.Report(user, channel, [e], [true]), SessionRuns.Join(other, true);
            var s2 := SessionRuns.Apply(SessionRuns.Apply(s, a), b);
            && SessionRuns.Enabled(s, a) && SessionRuns.Enabled(SessionRuns.Apply(s, a), b)
            && Inv(s2) && Clear(s2)
            && s2 == s.(asked := s2.asked, client := s2.client)
            && s2.asked == s.asked + [Send(channel, ReportBody(user, e)),
                                      Subscribe(other, s.client.subscriptionId, s.client.receiptNumber)]
            && s2.client.subscriptions == s.client.subscriptions[other := s.client.subscriptionId]
            && s2.client.receiptNumber == s.client.receiptNumber + 1 && !s2.client.terminateKeyboard && s2.failed.None?
            && s2.client.subscriptionId == s.client.subscriptionId + 1
  {
    hide *;
    RestHasRoom(s);
    Reports1(s, user, channel, e);
    var s1 := SessionRuns.Apply(s, SessionRuns.Report(user, channel, [e], [true]));
    JoinsOne(s1, other);
    Assoc(s.asked, [Send(channel, ReportBody(user, e))],
          [Subscribe(other, s.client.subscriptionId, s.client.receiptNumber)]);
  }

  lemma RestHasRoom(s: Session)
    requires AtRest(s)
    ensures HasRoom(s.client) && !s.client.terminateKeyboard && s.failed.None?
  {
  }

  lemma TwoUnderWay(s: Session, asked: seq<Request>, r: Request, r': Request)
    requires s.asked == asked + [r, r'] && |s.fates| == |asked| && s.cut == 0
    ensures HasNext(s) && MayEndAt(s.asked, |s.fates| + 1, 1, 0) && Next(s) == r
  {
  }

  lemma OneUnderWay(s: Session, asked: seq<Request>, r: Request)
    requires s.asked == asked + [r] && |s.fates| == |asked| && s.cut == 0
    ensures HasNext(s) && MayEndAt(s.asked, |s.fates| + 1, 0, 0) && Next(s) == r
  {
  }

  lemma FiveActs(s: Session, acts: seq<Act>)
    requires |acts| == 5
    ensures var s1 := SessionRuns.Apply(s, acts[0]);
            var s2 := SessionRuns.Apply(s1, acts[1]);
            var s3 := SessionRuns.Apply(s2, acts[2]);
            var s4 := SessionRuns.Apply(s3, acts[3]);
            && After(s, acts, 5) == SessionRuns.Apply(s4, acts[4])
            && ((&& SessionRuns.Enabled(s, acts[0]) && SessionRuns.Enabled(s1, acts[1])
                 && SessionRuns.Enabled(s2, acts[2])
                 && SessionRuns.Enabled(s3, acts[3]) && SessionRuns.Enabled(s4, acts[4])) ==>
                  AllTaken(s, acts))
  {
    hide SessionRuns.Apply, SessionRuns.Enabled;
    assert After(s, acts, 1) == SessionRuns.Apply(s, acts[0]);
    assert After(s, acts, 3) == SessionRuns.Apply(SessionRuns.Apply(After(s, acts, 1), acts[1]), acts[2]);
  }

  predicate AllTaken(s: Session, acts: seq<Act>) {
    forall k | 0 <= k < |acts| :: SessionRuns.Enabled(After(s, acts, k), acts[k])
  }

  /** The SEND and what follows it are read in one chunk. */
  lemma SkipsOne(s: Session) returns (a: Act)
    requires Inv(s) && Clear(s) && HasNext(s) && |s.asked| == |s.fates| + 2
    requires Next(s).Send? && HasNull(s.server.tables, Next(s).channel)
    ensures a.Arrive? && a.drop == 1 && a.cut == 0 && SessionRuns.Enabled(s, a)
    ensures var s' := SessionRuns.Apply(s, a);
            && Inv(s') && s' == s.(server := s'.server, fates := s.fates + [Whole, Skipped]) && s'.cut == 0
            && s.me in s'.server.tables.active
            && View(s'.server.tables, s.me) == View(s.server.tables, s.me) && Sane(View(s.server.tables, s.me))
  {
    hide *;
    ClearHasNoCut(s);
    TwoLeft(s);
    a := MayArrive(s, 1, 0);
    ItArrives(s, a);
    SendLoses(s, a);
    OneDropped();
    Assoc(s.fates, [Whole], [Skipped]);
  }

  lemma TwoLeft(s: Session)
    requires |s.asked| == |s.fates| + 2
    ensures MayEndAt(s.asked, |s.fates| + 1, 1, 0)
  {
  }

  lemma ClearHasNoCut(s: Session)
    requires Clear(s)
    ensures s.cut == 0
  {
  }

  /** A client with nothing under way logs out. */
  lemma LogsOutAtLast(s: Session) returns (b: Act, i: nat)
    requires Inv(s) && |s.fates| == |s.asked| && s.cut == 0 && !s.client.terminateKeyboard && s.failed.None?
             && HasRoom(s.client)
    requires s.me in s.server.tables.active && Sane(View(s.server.tables, s.me))
    ensures b.Arrive? && b.drop == 0 && b.cut == 0
    ensures var s1 := SessionRuns.Apply(s, SessionRuns.Logout(true));
            var now := SessionRuns.Apply(s1, b);
            && SessionRuns.Enabled(s, SessionRuns.Logout(true)) && SessionRuns.Enabled(s1, b)
            && now.fates == s.fates + [Whole]
            && now.asked == s.asked + [Disconnect(s.client.receiptNumber)]
            && i < |Mail(now)| && IsLogoutReceipt(now, Mail(now)[i])
            && now.client.subscriptions == s.client.subscriptions && now.me == s.me
            && View(now.server.tables, s.me) == View(s.server.tables, s.me)
  {
    hide *;
    LogsOut(s);
    var s1 := SessionRuns.Apply(s, SessionRuns.Logout(true));
    OneUnderWay(s1, s.asked, Disconnect(s.client.receiptNumber));
    b := MayArrive(s1, 0, 0);
    ItArrives(s1, b);
    i := LogoutIsAnswered(s1, b);
  }

  lemma OneDropped()
    ensures Dropping(1) == [Skipped]
  {
    assert Dropping(0) == [];
  }

  lemma ItArrives(s: Session, a: Act)
    requires a.Arrive? && SessionRuns.Enabled(s, a)
    ensures Arrives(s, a)
  {
  }

  /** The client reports, joins, and the server reads both in one chunk. */
  lemma JoinIsSkipped(s: Session, user: string, channel: string, e: Event, other: string) returns (a: Act)
    requires AtRest(s) && channel in s.client.subscriptions && HasNull(s.server.tables, channel)
    requires Reportable(e) && Carried(user, [e]) && Plain(other) && other !in s.client.subscriptions
    ensures a.Arrive? && a.drop == 1 && a.cut == 0
    ensures var report, join := SessionRuns.Report(user, channel, [e], [true]), SessionRuns.Join(other, true);
            var s1 := SessionRuns.Apply(s, report);
            var s2 := SessionRuns.Apply(s1, join);
            var s3 := SessionRuns.Apply(s2, a);
            && SessionRuns.Enabled(s, report) && SessionRuns.Enabled(s1, join) && SessionRuns.Enabled(s2, a)
            && Inv(s3) && s3.fates == s.fates + [Whole, Skipped] && s3.cut == 0 && |s3.asked| == |s3.fates|
            && s3.asked == s.asked + [Send(channel, ReportBody(user, e)),
                                      Subscribe(other, s.client.subscriptionId, s.client.receiptNumber)]
            && s3.me == s.me && s.me in s3.server.tables.active
            && View(s3.server.tables, s.me) == View(s.server.tables, s.me) && Sane(View(s.server.tables, s.me))
            && other in s3.client.subscriptions && !s3.client.terminateKeyboard && s3.failed.None? && HasRoom(s3.client)
            && s3.client.receiptNumber == s.client.receiptNumber + 1
  {
    assert s.client.subscriptionId + 2 <= INT_MAX && s.client.receiptNumber + 4 <= INT_MAX && |s.fates| == |s.asked|;
    ReportsAndJoins(s, user, channel, e, other);
    hide *;
    var s1 := SessionRuns.Apply(s, SessionRuns.Report(user, channel, [e], [true]));
    var s2 := SessionRuns.Apply(s1, SessionRuns.Join(other, true));
    ClearHasNoCut(s2);
    TwoUnderWay(s2, s.asked, Send(channel, ReportBody(user, e)),
                Subscribe(other, s.client.subscriptionId, s.client.receiptNumber));
    ThereIsRoom(s2.client);
    a := SkipsOne(s2);
  }

  /** Whatever the session has been so far: when the client is at rest, has
      joined a channel with a null key, reports one event on it and joins another
      channel, and the server reads both requests in one chunk, the second one
      is never processed.  The client then logs out and gets the RECEIPT of its
      DISCONNECT, although one of its requests was skipped, and it lists a
      subscription that the server does not. */
  lemma JoinIsLost(s: Session, user: string, channel: string, e: Event, other: string) returns (acts: seq<Act>, i: nat)
    requires AtRest(s) && channel in s.client.subscriptions && HasNull(s.server.tables, channel)
    requires Reportable(e) && Carried(user, [e]) && Plain(other) && other !in s.client.subscriptions
    ensures |acts| == 5
    ensures acts[0] == SessionRuns.Report(user, channel, [e], [true]) && acts[1] == SessionRuns.Join(other, true)
    ensures acts[2].Arrive? && acts[2].drop == 1 && acts[2].cut == 0
    ensures acts[3] == SessionRuns.Logout(true) && acts[4].Arrive? && acts[4].drop == 0 && acts[4].cut == 0
    ensures AllTaken(s, acts)
    ensures var now := After(s, acts, 5);
            && now.fates == s.fates + [Whole, Skipped, Whole] && !HasTorn(now.fates)
            && now.asked == s.asked + [Send(channel, ReportBody(user, e)),
                                       Subscribe(other, s.client.subscriptionId, s.client.receiptNumber),
                                       Disconnect(s.client.receiptNumber + 1)]
            && i < |Mail(now)| && IsLogoutReceipt(now, Mail(now)[i])
            && other in now.client.subscriptions && other !in View(now.server.tables, now.me)
  {
    hide *;
    RestIsAgreed(s);
    var report, join := SessionRuns.Report(user, channel, [e], [true]), SessionRuns.Join(other, true);
    var a := JoinIsSkipped(s, user, channel, e, other);
    var s3 := SessionRuns.Apply(SessionRuns.Apply(SessionRuns.Apply(s, report), join), a);
    var b;
    b, i := LogsOutAtLast(s3);
    acts := [report, join, a, SessionRuns.Logout(true), b];
    FiveActs(s, acts);
    TwoAndOne(s.fates, Whole, Skipped, Whole);
    TwoAndOne(s.asked, Send(channel, ReportBody(user, e)),
              Subscribe(other, s.client.subscriptionId, s.client.receiptNumber),
              Disconnect(s.client.receiptNumber + 1));
    StillNoneTorn(s, After(s, acts, 5).fates);
  }

  lemma TwoAndOne<T>(s: seq<T>, x: T, y: T, z: T)
    ensures (s + [x, y]) + [z] == s + [x, y, z]
  {
  }

  lemma ThereIsRoom(c: Client)
    requires c.receiptNumber + 2 <= INT_MAX && c.subscriptionId < INT_MAX
    ensures HasRoom(c)
  {
  }

  lemma RestIsAgreed(s: Session)
    requires AtRest(s)
    ensures View(s.server.tables, s.me) == s.client.subscriptions && |s.fates| == |s.asked|
    ensures forall k | 0 <= k < |s.fates| :: !s.fates[k].Torn?
  {
    assert s.asked[|s.fates|..] == [];
  }

  lemma StillNoneTorn(s: Session, fates: seq<Fate>)
    requires fates == s.fates + [Whole, Skipped, Whole] && forall k | 0 <= k < |s.fates| :: !s.fates[k].Torn?
    ensures !HasTorn(fates)
  {
  }

  // ----- How such a state comes about -----

  lemma ElsewhereRests(s: Session, step: SR.Step)
    requires AtRest(s) && SR.Enabled(s.server, step) && (step.Process? ==> step.conn != s.me)
    ensures var s' := SessionRuns.Apply(s, Elsewhere(step));
            && SessionRuns.Enabled(s, Elsewhere(step))
            && AtRest(s') && s' == s.(server := SR.Apply(s.server, step))
  {
    ActKeeps(s, Elsewhere(step));
    ClearStep(s, Elsewhere(step));
    hide Inv, Clear, SR.Apply, SR.Enabled;
  }

  /** A stranger comes, sends to a channel it has not joined, and subscribes to
      one the client has joined. */
  lemma StrangerComes(s: Session, r: Request, r': Request) returns (acts: seq<Act>)
    requires AtRest(s) && !s.server.accepting && NoNull(s.server.tables)
    requires Sendable(r) && r.Send? && Sendable(r') && r'.Subscribe?
    ensures |acts| == 4 && (forall k | 0 <= k < 4 :: acts[k].Elsewhere?) && AllTaken(s, acts)
    ensures var now := After(s, acts, 4);
            AtRest(now) && HasNull(now.server.tables, r'.channel) && now == s.(server := now.server)
  {
    hide *;
    RestHasServer(s);
    var a, b := StrangerLeavesNull(s.server, r, r');
    var s1 := SessionRuns.Apply(s, Elsewhere(SR.AddConnection));
    var s2 := SessionRuns.Apply(s1, Elsewhere(SR.CountConnection));
    var s3 := SessionRuns.Apply(s2, Elsewhere(a));
    ElsewhereRests(s, SR.AddConnection);
    ElsewhereRests(s1, SR.CountConnection);
    IsAskedBy(a, s.server.tables.counter, r);
    IsAskedBy(b, s.server.tables.counter, r');
    ElsewhereRests(s2, a);
    ElsewhereRests(s3, b);
    acts := [Elsewhere(SR.AddConnection), Elsewhere(SR.CountConnection), Elsewhere(a), Elsewhere(b)];
    FourActs(s, acts);
  }

  lemma RestHasServer(s: Session)
    requires AtRest(s)
    ensures SR.Inv(s.server) && s.me < s.server.tables.counter
  {
  }

  lemma IsAskedBy(step: SR.Step, conn: int, r: Request)
    requires IsAsked(step, conn, r)
    ensures step.Process? && step.conn == conn
  {
  }

  lemma FourActs(s: Session, acts: seq<Act>)
    requires |acts| == 4
    ensures var s1 := SessionRuns.Apply(s, acts[0]);
            var s2 := SessionRuns.Apply(s1, acts[1]);
            var s3 := SessionRuns.Apply(s2, acts[2]);
            && After(s, acts, 4) == SessionRuns.Apply(s3, acts[3])
            && ((&& SessionRuns.Enabled(s, acts[0]) && SessionRuns.Enabled(s1, acts[1])
                 && SessionRuns.Enabled(s2, acts[2])
                 && SessionRuns.Enabled(s3, acts[3])) ==>
                  AllTaken(s, acts))
  {
    hide SessionRuns.Apply, SessionRuns.Enabled;
    assert After(s, acts, 1) == SessionRuns.Apply(s, acts[0]);
    assert After(s, acts, 3) == SessionRuns.Apply(SessionRuns.Apply(After(s, acts, 1), acts[1]), acts[2]);
  }

  /** A request that is not refused arrives alone in its chunk. */
  lemma ArrivesAlone(s: Session) returns (a: Act)
    requires Inv(s) && Clear(s) && NoNull(s.server.tables) && HasNext(s) && !Refused(s.server.tables, Next(s))
    requires s.me in s.server.tables.active
    ensures a.Arrive? && SessionRuns.Enabled(s, a)
    ensures var s' := SessionRuns.Apply(s, a);
            && Inv(s') && Clear(s') && NoNull(s'.server.tables)
            && s' == s.(server := s'.server, fates := s.fates + [Whole])
            && s'.server.accepting == s.server.accepting && s.me in s'.server.tables.active
  {
    hide *;
    OneLeft(s);
    ClearHasNoCut(s);
    a := MayArrive(s, 0, 0);
    ItArrives(s, a);
    ActKeeps(s, a);
    NothingIsLost(s, a);
    ArrivesWhole(s, a);
    StaysActive(s, a);
    NoNullStays(s, a);
  }

  lemma OneLeft(s: Session)
    requires HasNext(s)
    ensures MayEndAt(s.asked, |s.fates| + 1, 0, 0)
  {
  }

  lemma NothingIsLost(s: Session, a: Act)
    requires Inv(s) && Clear(s) && Arrives(s, a) && !Refused(s.server.tables, Next(s)) && a.drop == 0 && a.cut == 0
    ensures Clear(SessionRuns.Apply(s, a))
  {
    ClearStep(s, a);
    hide Inv, Clear, SessionRuns.Apply, Refused, HasNull, SessionRuns.Enabled;
  }

  lemma StaysActive(s: Session, a: Act)
    requires Inv(s) && Clear(s) && Arrives(s, a) && !Refused(s.server.tables, Next(s))
    ensures s.me in SR.Apply(s.server, NextStep(s, a.orders)).tables.active
  {
    ArriveAgrees(s, a);
    hide Inv, Clear, SR.Apply, Refused, SessionRuns.Enabled, View, OwnAnswers, ErrorSince, WireText;
  }

  lemma NoNullStays(s: Session, a: Act)
    requires Inv(s) && NoNull(s.server.tables) && Arrives(s, a) && s.me in s.server.tables.active
    ensures NoNull(SR.Apply(s.server, NextStep(s, a.orders)).tables)
    ensures SR.Apply(s.server, NextStep(s, a.orders)).accepting == s.server.accepting
  {
    LiveLeavesNoNull(s.server, NextStep(s, a.orders));
    hide SR.Called, WireText, NoNull;
  }

  /** The session of a first client, when its CONNECT is on its way. */
  function Opening(login: string, passcode: string): Session {
    Session(ONE, 0, NEW_CLIENT, [Connect(login, passcode)], [], 0, 0, None)
  }

  const FIRST := [SR.AddConnection, SR.CountConnection]

  lemma OpeningBegins(login: string, passcode: string)
    requires Plain(login) && Plain(passcode)
    ensures var s := Opening(login, passcode);
            && Begins(s, FIRST, login, passcode) && Inv(s) && Clear(s)
            && NoNull(s.server.tables) && !s.server.accepting && s.me in s.server.tables.active
            && MayConnect(s.server.tables, login, Some(passcode))
  {
    OneAccepted();
    EmptyHasNoNull();
    AtOne(FIRST);
    var s := Opening(login, passcode);
    assert SR.At(FIRST, 1) == SR.Apply(SR.INITIAL, SR.AddConnection);
    hide SR.Apply, SR.At, Inv, Clear, SR.Inv, View;
    BeginningInv(s, FIRST, login, passcode);
    BeginsClear(s, FIRST, login, passcode);
  }

  /** A first client connects and joins a channel. */
  lemma FirstJoin(login: string, passcode: string, channel: string) returns (acts: seq<Act>)
    requires Plain(login) && Plain(passcode) && Plain(channel)
    ensures |acts| == 3 && acts[0] == SessionRuns.Join(channel, true) && acts[1].Arrive? && acts[2].Arrive?
    ensures AllTaken(Opening(login, passcode), acts)
    ensures var now := After(Opening(login, passcode), acts, 3);
            && AtRest(now) && NoNull(now.server.tables) && !now.server.accepting
            && now.client.subscriptions == map[channel := 0]
  {
    OpeningBegins(login, passcode);
    var s := Opening(login, passcode);
    assert HasRoom(s.client) && s.client == NEW_CLIENT && s.fates == [];
    assert s.asked == [Connect(login, passcode)] && |s.asked| == 1;
    hide *;
    JoinsOne(s, channel);
    var s1 := SessionRuns.Apply(s, SessionRuns.Join(channel, true));
    assert s1.asked[0] == Connect(login, passcode) && s1.asked[1] == Subscribe(channel, 0, 0);
    NextIs(s1);
    ConnectIsNotRefused(s1.server.tables, s1.asked[0]);
    var a := ArrivesAlone(s1);
    var s2 := SessionRuns.Apply(s1, a);
    NextIs(s2);
    SubscribeIsNotRefused(s2.server.tables, s2.asked[1]);
    var b := ArrivesAlone(s2);
    acts := [SessionRuns.Join(channel, true), a, b];
    ThreeActs(s, acts);
    RestsNow(SessionRuns.Apply(s2, b));
  }

  lemma NextIs(s: Session)
    requires |s.fates| < |s.asked| && Clear(s)
    ensures HasNext(s) && Next(s) == s.asked[|s.fates|]
  {
  }

  lemma ConnectIsNotRefused(t: Tables, r: Request)
    requires r.Connect? && MayConnect(t, r.login, Some(r.passcode))
    ensures !Refused(t, r)
  {
  }

  lemma SubscribeIsNotRefused(t: Tables, r: Request)
    requires r.Subscribe?
    ensures !Refused(t, r)
  {
  }

  lemma RestsNow(s: Session)
    requires Inv(s) && Clear(s) && |s.fates| == |s.asked|
    requires !s.client.terminateKeyboard && s.failed.None? && s.client.receiptNumber == 1
             && s.client.subscriptionId == 1
    ensures AtRest(s)
  {
  }

  lemma ThreeActs(s: Session, acts: seq<Act>)
    requires |acts| == 3
    ensures var s1 := SessionRuns.Apply(s, acts[0]);
            var s2 := SessionRuns.Apply(s1, acts[1]);
            && After(s, acts, 3) == SessionRuns.Apply(s2, acts[2])
            && ((&& SessionRuns.Enabled(s, acts[0]) && SessionRuns.Enabled(s1, acts[1])
                 && SessionRuns.Enabled(s2, acts[2])) ==>
                  AllTaken(s, acts))
  {
    hide SessionRuns.Apply, SessionRuns.Enabled;
    assert After(s, acts, 1) == SessionRuns.Apply(s, acts[0]);
  }

  lemma {:induction false} AfterMore(s: Session, acts: seq<Act>, more: seq<Act>, n: nat)
    requires n <= |more|
    ensures After(s, acts + more, |acts| + n) == After(After(s, acts, |acts|), more, n)
    decreases n
  {
    hide SessionRuns.Apply;
    if n > 0 {
      AfterMore(s, acts, more, n - 1);
      assert (acts + more)[|acts| + n - 1] == more[n - 1];
    } else {
      AfterFirst(s, acts, more, |acts|);
    }
  }

  lemma {:induction false} AfterFirst(s: Session, acts: seq<Act>, more: seq<Act>, n: nat)
    requires n <= |acts|
    ensures After(s, acts + more, n) == After(s, acts, n)
  {
    hide SessionRuns.Apply;
    if n > 0 {
      AfterFirst(s, acts, more, n - 1);
    }
  }

  lemma AllTakenMore(s: Session, acts: seq<Act>, more: seq<Act>)
    requires AllTaken(s, acts) && AllTaken(After(s, acts, |acts|), more)
    ensures AllTaken(s, acts + more)
    ensures After(s, acts + more, |acts + more|) == After(After(s, acts, |acts|), more, |more|)
  {
    hide SessionRuns.Apply, SessionRuns.Enabled, After;
    AfterMore(s, acts, more, |more|);
    forall k | 0 <= k < |acts + more|
      ensures SessionRuns.Enabled(After(s, acts + more, k), (acts + more)[k])
    {
      if k < |acts| {
        AfterFirst(s, acts, more, k);
      } else {
        AfterMore(s, acts, more, k - |acts|);
      }
    }
  }

  /** A run from the empty server on which this happens.  `r` is the stranger's
      SEND, `r'` its SUBSCRIBE. */
  lemma JoinCanBeLost(login: string, passcode: string, channel: string, r: Request, r': Request,
                      user: string, e: Event, other: string) returns (acts: seq<Act>, i: nat)
    requires Plain(login) && Plain(passcode) && Plain(channel) && Plain(other) && other != channel
    requires Sendable(r) && r.Send? && Sendable(r') && r'.Subscribe? && r'.channel == channel
    requires Reportable(e) && Carried(user, [e])
    ensures Begins(Opening(login, passcode), FIRST, login, passcode) && AllTaken(Opening(login, passcode), acts)
    ensures var now := After(Opening(login, passcode), acts, |acts|);
            && i < |Mail(now)| && IsLogoutReceipt(now, Mail(now)[i])
            && |now.fates| == |now.asked| && !HasTorn(now.fates)
            && (exists k :: 0 <= k < |now.fates| && now.asked[k].Subscribe? && now.asked[k].channel == other
                            && now.fates[k] == Skipped)
            && other in now.client.subscriptions && other !in View(now.server.tables, now.me)
  {
    hide *;
    OpeningBegins(login, passcode);
    var s := Opening(login, passcode);
    var a := FirstJoin(login, passcode, channel);
    var s1 := After(s, a, 3);
    var b := StrangerComes(s1, r, r');
    var s2 := After(s1, b, 4);
    var c;
    c, i := JoinIsLost(s2, user, channel, e, other);
    AllTakenMore(s1, b, c);
    AllTakenMore(s, a, b + c);
    acts := a + (b + c);
    var now := After(s2, c, 5);
    RestIsOver(s2);
    assert now.fates[|s2.fates| + 1] == Skipped && now.asked[|s2.fates| + 1].Subscribe?;
  }

  lemma RestIsOver(s: Session)
    requires AtRest(s)
    ensures |s.fates| == |s.asked|
  {
  }

  // ----- A torn request -----

  /** A request for a RECEIPT that does not say under which number. */
  const BARE := Frame("DISCONNECT", map[], "")

  function BareText(): string {
    JavaPrint(BARE, [])
  }

  lemma BareIsRead()
    ensures JavaParse(BareText()) == Ok(BARE)
  {
    assert Free("DISCONNECT", '\n');
    assert Tail("") == "" && Norm("") == "";
    JavaReads(BARE, [], "");
  }

  /** A report whose description is "DISCONNECT" ends like such a request. */
  lemma ReportEndsBare(user: string, channel: string, e: Event) returns (cut: nat)
    requires Reportable(e) && e.description == BARE.command
    ensures var text := WireText(Send(channel, ReportBody(user, e)));
            0 < cut <= |text| && text[cut..] == BareText()
  {
    var r, d := Send(channel, ReportBody(user, e)), e.description;
    HeaderOrderIsOrder(r);
    UnlinesSnoc(Heading(user, e), d);
    BareTextIs();
    EndOf(Unlines(Head(FrameOf(r), HeaderOrder(r))), Unlines(Heading(user, e)), d);
    var body := Unlines(Heading(user, e)) + d + "\n";
    assert ReportBody(user, e) == body && Tail(body) == body + "\n";
    hide Heading, Head, Unlines, ReportBody;
    cut := |Unlines(Head(FrameOf(r), HeaderOrder(r)))| + 2 + |Unlines(Heading(user, e))|;
    assert WireText(r) == Unlines(Head(FrameOf(r), HeaderOrder(r))) + ("\n" + ("\n" + (body + "\n")));
  }

  lemma BareTextIs()
    ensures BareText() == BARE.command + "\n" + "\n"
  {
    var d := BARE.command;
    assert HeaderLines(BARE.headers, []) == [] && Head(BARE, []) == [d];
    assert [d][1..] == [] && Unlines([d]) == d + ("\n" + "");
    assert Tail("") == "";
  }

  lemma EndOf(head: string, body: string, d: string)
    ensures var text := head + ("\n" + ("\n" + ((body + d + "\n") + "\n")));
            |text| >= |head| + 2 + |body| && text[|head| + 2 + |body|..] == d + "\n" + "\n"
  {
  }

  lemma BareIsDisconnect()
    ensures BARE.command == "DISCONNECT" && BARE.command != "CONNECT"
  {
  }

  lemma LeavingIsAnswered(t: Tables, p: Proto, f: Frame, o: Orders)
    requires OrdersFit(t, o) && Lookup(t, p.connectionID) == Conn(p.connectionID)
    ensures OnDisconnect(t, p, f, o).tables.sent ==
            t.sent + [Delivery(p.connectionID, ReceiptFrame(Header(f, "receipt")))]
  {
    SR.DisconnectedMeans(Answer(t, p, ReceiptFrame(Header(f, "receipt"))).tables, p.connectionID, o);
  }

  /** Such a request is answered with RECEIPT, and nothing else is sent. */
  lemma BareIsAnswered(w: SR.World, conn: int, o: Orders)
    requires SR.Inv(w) && conn in w.protos && conn in w.tables.active && OrdersFit(w.tables, o)
    ensures SR.Apply(w, SR.Process(conn, BareText(), o)).tables.sent ==
            w.tables.sent + [Delivery(conn, ReceiptFrame(None))]
  {
    hide BareText, JavaParse;
    BareIsRead();
    var t, p := w.tables, w.protos[conn].(connectionID := conn, shouldTerminate := true);
    assert Header(BARE, "receipt") == None;
    LeavingIsAnswered(t, p, BARE, o);
    hide OnDisconnect, OnConnect, OnUnsubscribe, OnSubscribe, OnSend, OrdersFit;
    assert SR.Called(w, SR.Process(conn, BareText(), o)) == OnDisconnect(t, p, BARE, o) by {
      BareIsDisconnect();
    }
  }

  /** The client has no receipt of this number. */
  lemma NullIsNoReceipt(c: Client)
    requires ClientInv(c)
    ensures "null" !in c.receipts
  {
    if "null" in c.receipts {
      var n :| 0 <= n < c.receiptNumber && ToString(n) == "null";
      NumbersAreDigits(n);
      assert false;
    }
  }

  lemma NumbersAreDigits(n: nat)
    ensures ToString(n) != "null"
  {
    var name := "null";
    assert IsDigit(Digits(n)[0]) && name[0] == 'n';
  }

  /** In whatever order the headers of this frame come, the client that reads it
      looks behind the end of its table. */
  ghost predicate FailsOver(c: Client, f: Frame) {
    forall order | IsOrder(order, f.headers.Keys) ::
      var p := CppParse(JavaPrint(f, order) + [NUL]);
      p.Ok? && AfterFrame(c, p.value) == Err(EndDereferenced)
  }

  lemma UnknownReceiptFails(s: Session, i: nat)
    requires Inv(s) && i < |Mail(s)| && Mail(s)[i] == ReceiptFrame(None)
    ensures FailsOver(s.client, Mail(s)[i])
  {
    NullIsNoReceipt(s.client);
    forall order | IsOrder(order, Mail(s)[i].headers.Keys)
      ensures var p := CppParse(JavaPrint(Mail(s)[i], order) + [NUL]);
              p.Ok? && AfterFrame(s.client, p.value) == Err(EndDereferenced)
    {
      MailReadsBack(s, i, order);
      hide Inv, Mail, CppParse, JavaPrint;
    }
    hide Inv, Mail, CppParse, JavaPrint;
  }

  /** The client has reported two events. */
  lemma Reports2(s: Session, user: string, channel: string, e: Event, e': Event)
    requires AtRest(s) && channel in s.client.subscriptions && Reportable(e) && Reportable(e') && Carried(user, [e, e'])
    ensures var a := SessionRuns.Report(user, channel, [e, e'], [true, true]);
            var s' := SessionRuns.Apply(s, a);
            && SessionRuns.Enabled(s, a) && Inv(s') && Clear(s')
            && s' == s.(asked := s.asked + [Send(channel, ReportBody(user, e)), Send(channel, ReportBody(user, e'))])
  {
    var a := SessionRuns.Report(user, channel, [e, e'], [true, true]);
    hide Inv, ReportsOf, ReportBody, WireText, CppParse, SR.Apply, AfterAnswer, AfterJoin, AfterExit, AfterLogout;
    ActKeeps(s, a);
    TwoReports(user, channel, e, e');
  }

  lemma TwoReports(user: string, channel: string, e: Event, e': Event)
    requires Reportable(e) && Reportable(e')
    ensures ReportsOf(user, channel, [e, e'], [true, true]) ==
            [Send(channel, ReportBody(user, e)), Send(channel, ReportBody(user, e'))]
  {
    assert [e, e'][..1] == [e] && [true, true][..1] == [true] && [e][..0] == [] && [true][..0] == [];
    hide ReportBody;
    assert ReportsOf(user, channel, [], []) == [];
    assert ReportsOf(user, channel, [e], [true]) == [] + ReportOf(user, channel, e, true) ==
           [Send(channel, ReportBody(user, e))];
  }

  /** What is left of the second report arrives, and is answered. */
  lemma TailIsAnswered(s: Session, a: Act) returns (i: nat)
    requires Inv(s) && Arrives(s, a) && a.drop == 0 && a.cut == 0 && WireText(Next(s))[s.cut..] == BareText()
    requires s.me in s.server.tables.active
    ensures var s' := SessionRuns.Apply(s, a);
            && Inv(s') && s' == s.(server := s'.server, fates := s.fates + [FateOf(s.cut)], cut := 0)
            && i < |Mail(s')| && Mail(s')[i] == ReceiptFrame(None)
  {
    ActKeeps(s, a);
    ArriveIs(s, a);
    BareIsAnswered(s.server, s.me, a.orders);
    NoneDropped(s.fates, FateOf(s.cut));
    hide Inv, SessionRuns.Apply, SR.Apply, SR.Called, SR.Inv, WireText, BareText, SessionRuns.Enabled;
    InboxSnoc(s.server.tables.sent, Delivery(s.me, ReceiptFrame(None)), s.me);
    i := |Mail(s)|;
  }

  lemma NoneDropped(fates: seq<Fate>, f: Fate)
    ensures fates + [f] + Dropping(0) == fates + [f]
  {
  }

  /** Whatever the session has been so far: when the client is at rest, has
      joined a channel with a null key, and reports two events there, the
      second one with the description "DISCONNECT"; and when the first chunk
      ends in front of that word: then the server takes the rest for a
      DISCONNECT without a number and answers it.  The client, which has asked
      for nothing but two SENDs, finds no such receipt and looks behind the end
      of its table. */
  lemma TornReportFailsTheClient(s: Session, user: string, channel: string, e: Event, e': Event)
    returns (acts: seq<Act>, i: nat)
    requires AtRest(s) && channel in s.client.subscriptions && HasNull(s.server.tables, channel)
    requires Reportable(e) && Reportable(e') && Carried(user, [e, e']) && e'.description == BARE.command
    ensures |acts| == 3 && acts[0] == SessionRuns.Report(user, channel, [e, e'], [true, true])
    ensures acts[1].Arrive? && acts[1].drop == 0 && acts[1].cut > 0 && acts[2].Arrive?
    ensures AllTaken(s, acts)
    ensures var now := After(s, acts, 3);
            && now.asked == s.asked + [Send(channel, ReportBody(user, e)), Send(channel, ReportBody(user, e'))]
            && now.fates == s.fates + [Whole, Torn(acts[1].cut)]
            && i < |Mail(now)| && Mail(now)[i] == ReceiptFrame(None)
            && FailsOver(now.client, Mail(now)[i])
  {
    hide *;
    RestIsOver(s);
    var report := SessionRuns.Report(user, channel, [e, e'], [true, true]);
    Reports2(s, user, channel, e, e');
    var s1 := SessionRuns.Apply(s, report);
    ClearHasNoCut(s1);
    TwoUnderWay(s1, s.asked, Send(channel, ReportBody(user, e)), Send(channel, ReportBody(user, e')));
    var cut := ReportEndsBare(user, channel, e');
    MayTear(s1, cut);
    var a := MayArrive(s1, 0, cut);
    ItArrives(s1, a);
    SendLoses(s1, a);
    NoneDropped(s.fates, Whole);
    var s2 := SessionRuns.Apply(s1, a);
    RestOfOne(s2, s1.asked[|s.fates| + 1]);
    var b := MayArrive(s2, 0, 0);
    ItArrives(s2, b);
    i := TailIsAnswered(s2, b);
    acts := [report, a, b];
    ThreeActs(s, acts);
    TornFate(s.fates, cut);
    UnknownReceiptFails(SessionRuns.Apply(s2, b), i);
  }

  /** A run from the empty server on which this happens. */
  lemma ClientCanFail(login: string, passcode: string, channel: string, r: Request, r': Request,
                      user: string, e: Event, e': Event) returns (acts: seq<Act>, i: nat)
    requires Plain(login) && Plain(passcode) && Plain(channel)
    requires Sendable(r) && r.Send? && Sendable(r') && r'.Subscribe? && r'.channel == channel
    requires Reportable(e) && Reportable(e') && Carried(user, [e, e']) && e'.description == BARE.command
    ensures Begins(Opening(login, passcode), FIRST, login, passcode) && AllTaken(Opening(login, passcode), acts)
    ensures var now := After(Opening(login, passcode), acts, |acts|);
            && i < |Mail(now)| && Mail(now)[i] == ReceiptFrame(None) && FailsOver(now.client, Mail(now)[i])
            && |now.fates| == |now.asked| && HasTorn(now.fates)
  {
    hide *;
    OpeningBegins(login, passcode);
    var s := Opening(login, passcode);
    var a := FirstJoin(login, passcode, channel);
    var s1 := After(s, a, 3);
    var b := StrangerComes(s1, r, r');
    var s2 := After(s1, b, 4);
    RestIsOver(s2);
    var c;
    c, i := TornReportFailsTheClient(s2, user, channel, e, e');
    AllTakenMore(s1, b, c);
    AllTakenMore(s, a, b + c);
    acts := a + (b + c);
    OneTorn(s2.fates, c[1].cut);
  }

  lemma OneTorn(fates: seq<Fate>, cut: nat)
    ensures HasTorn(fates + [Whole, Torn(cut)])
  {
    assert (fates + [Whole, Torn(cut)])[|fates| + 1].Torn?;
  }

  lemma MayTear(s: Session, cut: nat)
    requires |s.fates| + 1 < |s.asked| && cut <= |WireText(s.asked[|s.fates| + 1])|
    ensures MayEndAt(s.asked, |s.fates| + 1, 0, cut)
  {
  }

  lemma RestOfOne(s: Session, r: Request)
    requires |s.asked| == |s.fates| + 1 && s.asked[|s.fates|] == r && s.cut <= |WireText(r)|
    ensures HasNext(s) && MayEndAt(s.asked, |s.fates| + 1, 0, 0) && Next(s) == r
  {
  }

  lemma TornFate(fates: seq<Fate>, cut: nat)
    requires cut > 0
    ensures fates + [Whole] + [FateOf(cut)] == fates + [Whole, Torn(cut)]
  {
  }
}
