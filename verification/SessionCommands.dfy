/** What each keyboard command and each frame from the server does to a session. */
module SessionCommands {
  import opened Text
  import opened StompFrames
  import opened Decimal
  import opened Reports
  import SR = ServerRuns
  import opened ServerView
  import opened ClientSession
  import opened OneCall
  import opened OwnRequests
  import opened SessionRuns
  import opened SessionInvariant
  import opened SessionTheorems
  import opened SessionAgreement

  /** A command changes nothing but the client and what it has asked. */
  predicate OnlyAsks(s: Session, s': Session) {
    s' == s.(client := s'.client, asked := s'.asked)
  }

  /** The client keeps its flags. */
  predicate SameFlags(c: Client, c': Client) {
    c'.terminateKeyboard == c.terminateKeyboard && c'.terminateServerResponses == c.terminateServerResponses
  }

  /** This many receipt numbers are used up, and filed under this command. */
  predicate UsesReceipts(c: Client, c': Client, count: nat, command: string) {
    && c'.receiptNumber == c.receiptNumber + count
    && (forall n | c.receiptNumber <= n < c'.receiptNumber ::
          ToString(n) in c'.receipts && c'.receipts[ToString(n)] == command)
    && (forall k | k in c.receipts :: k in c'.receipts && c'.receipts[k] == c.receipts[k])
  }

  lemma UsesOne(c: Client, command: string)
    requires ClientInv(c) && HasRoom(c)
    ensures UsesReceipts(c, Produced(c, command), 1, command)
  {
    hide ToString, ReceiptsFiled, Sane;
    ProducedFiles(c, command);
  }

  lemma UsesTwo(c: Client, command: string)
    requires ClientInv(c) && HasRoom(c)
    ensures UsesReceipts(c, Produced(Produced(c, command), command), 2, command)
  {
    hide ToString, ReceiptsFiled, Sane;
    ProducedFiles(c, command);
    ProducedFiles(Produced(c, command), command);
  }

  /** join: when the channel is new and the socket takes the frame, one
      SUBSCRIBE goes out under the next number, and is recorded. */
  lemma JoinDoes(s: Session, channel: string, taken: bool)
    requires Inv(s) && SessionRuns.Enabled(s, SessionRuns.Join(channel, taken))
    ensures var s' := SessionRuns.Apply(s, SessionRuns.Join(channel, taken));
            var c, c' := s.client, s'.client;
            && OnlyAsks(s, s') && SameFlags(c, c') && UsesReceipts(c, c', 1, "SUBSCRIBE")
            && (if channel !in c.subscriptions && taken then
                  && s'.asked == s.asked + [Subscribe(channel, c.subscriptionId, c.receiptNumber)]
                  && c'.subscriptions == c.subscriptions[channel := c.subscriptionId]
                  && c'.subscriptionId == c.subscriptionId + 1
                else
                  s'.asked == s.asked && c'.subscriptions == c.subscriptions && c'.subscriptionId == c.subscriptionId)
  {
    hide ToString, ClientInv, AskedInv, Earned, ServerInv, Answered, Clear, Consistent, WireText, SR.Apply, HasTorn;
    UsesOne(s.client, "SUBSCRIBE");
    assert s.asked + [] == s.asked;
  }

  /** exit: when the channel is joined and the socket takes the frame, one
      UNSUBSCRIBE goes out, under the number of the record and the second of two
      receipt numbers, and the record is erased. */
  lemma ExitDoes(s: Session, channel: string, taken: bool)
    requires Inv(s) && SessionRuns.Enabled(s, SessionRuns.Exit(channel, taken))
    ensures var s' := SessionRuns.Apply(s, SessionRuns.Exit(channel, taken));
            var c, c' := s.client, s'.client;
            && OnlyAsks(s, s') && SameFlags(c, c') && c'.subscriptionId == c.subscriptionId
            && UsesReceipts(c, c', if channel in c.subscriptions then 2 else 1, "UNSUBSCRIBE")
            && (if channel in c.subscriptions && taken then
                  && s'.asked == s.asked + [Unsubscribe(channel, c.subscriptions[channel], c.receiptNumber + 1)]
                  && c'.subscriptions == c.subscriptions - {channel}
                else
                  s'.asked == s.asked && c'.subscriptions == c.subscriptions)
  {
    hide ToString, ClientInv, AskedInv, Earned, ServerInv, Answered, Clear, Consistent, WireText, SR.Apply, HasTorn;
    UsesOne(s.client, "UNSUBSCRIBE");
    UsesTwo(s.client, "UNSUBSCRIBE");
    assert s.asked + [] == s.asked;
  }

  /** logout: one DISCONNECT goes out if the socket takes it, and the keyboard is
      closed in any case. */
  lemma LogoutDoes(s: Session, taken: bool)
    requires Inv(s) && SessionRuns.Enabled(s, SessionRuns.Logout(taken))
    ensures var s' := SessionRuns.Apply(s, SessionRuns.Logout(taken));
            var c, c' := s.client, s'.client;
            && OnlyAsks(s, s') && UsesReceipts(c, c', 1, "DISCONNECT")
            && c'.terminateKeyboard && c'.terminateServerResponses == c.terminateServerResponses
            && c'.subscriptions == c.subscriptions && c'.subscriptionId == c.subscriptionId
            && s'.asked == s.asked + if taken then [Disconnect(c.receiptNumber)] else []
  {
    hide ToString, ClientInv, AskedInv, Earned, ServerInv, Answered, Clear, Consistent, WireText, SR.Apply, HasTorn;
    UsesOne(s.client, "DISCONNECT");
  }

  // ----- report -----

  /** These are the numbers of the events that have both general fields and whose
      frame the socket takes, in order. */
  predicate AreSent(events: seq<Event>, sends: seq<bool>, at: seq<nat>)
    requires |sends| == |events|
  {
    && (forall j | 0 <= j < |at| ::
          at[j] < |events| && sends[at[j]]
          && "active" in events[at[j]].info && "forces_arrival_at_scene" in events[at[j]].info)
    && (forall j, k | 0 <= j < k < |at| :: at[j] < at[k])
    && (forall i | 0 <= i < |events| && sends[i]
           && "active" in events[i].info && "forces_arrival_at_scene" in events[i].info ::
          i in at)
  }

  /** The requests are SENDs with the bodies of these events. */
  predicate AreReports(more: seq<Request>, user: string, channel: string, events: seq<Event>, at: seq<nat>) {
    && |more| == |at|
    && forall j | 0 <= j < |at| ::
         && at[j] < |events| && "active" in events[at[j]].info && "forces_arrival_at_scene" in events[at[j]].info
         && more[j] == Send(channel, ReportBody(user, events[at[j]]))
  }

  lemma SentNext(events: seq<Event>, sends: seq<bool>, at: seq<nat>)
    requires |sends| == |events| && events != []
    requires AreSent(events[..|events| - 1], sends[..|events| - 1], at)
    ensures var n := |events| - 1;
            AreSent(events, sends, if sends[n] && Reportable(events[n]) then at + [n] else at)
  {
    var n := |events| - 1;
    var all := if sends[n] && Reportable(events[n]) then at + [n] else at;
    assert forall i | 0 <= i < n :: events[..n][i] == events[i] && sends[..n][i] == sends[i];
    forall j | 0 <= j < |all|
      ensures all[j] < |events| && sends[all[j]] && Reportable(events[all[j]])
    {
      assert j < |at| ==> all[j] == at[j];
    }
    forall i | 0 <= i < |events| && sends[i] && Reportable(events[i])
      ensures i in all
    {
      if i < n {
        assert events[..n][i] == events[i];
        assert i in at;
      } else {
        assert all[|at|] == n;
      }
    }
  }

  lemma ReportsNext(more: seq<Request>, user: string, channel: string, events: seq<Event>, at: seq<nat>, sent: bool)
    requires events != [] && AreReports(more, user, channel, events[..|events| - 1], at)
    ensures var n := |events| - 1;
            AreReports(more + ReportOf(user, channel, events[n], sent), user, channel, events,
                       if sent && Reportable(events[n]) then at + [n] else at)
  {
    hide ReportBody;
    var n := |events| - 1;
    assert forall j | 0 <= j < |at| :: events[..n][at[j]] == events[at[j]];
    assert more + [] == more;
  }

  lemma {:induction false} ReportsAre(user: string, channel: string, events: seq<Event>, sends: seq<bool>)
    returns (at: seq<nat>)
    requires |sends| == |events|
    ensures AreSent(events, sends, at)
    ensures AreReports(ReportsOf(user, channel, events, sends), user, channel, events, at)
    decreases |events|
  {
    hide ReportBody, ReportOf;
    if events == [] {
      at := [];
    } else {
      hide AreSent, AreReports;
      var n := |events| - 1;
      var before := ReportsAre(user, channel, events[..n], sends[..n]);
      SentNext(events, sends, before);
      ReportsNext(ReportsOf(user, channel, events[..n], sends[..n]), user, channel, events, before, sends[n]);
      at := if sends[n] && Reportable(events[n]) then before + [n] else before;
    }
  }

  /** report: on a joined channel one SEND goes out for each event that has both
      general fields and that the socket takes, in the order of the events;
      events without them are left out, and those behind them are not. */
  lemma ReportDoes(s: Session, user: string, channel: string, events: seq<Event>, sends: seq<bool>)
    returns (at: seq<nat>)
    requires Inv(s) && SessionRuns.Enabled(s, SessionRuns.Report(user, channel, events, sends))
    ensures AreSent(events, sends, at)
    ensures var s' := SessionRuns.Apply(s, SessionRuns.Report(user, channel, events, sends));
            && s' == s.(asked := s'.asked)
            && (if channel in s.client.subscriptions then
                  && |s.asked| <= |s'.asked| && s'.asked[..|s.asked|] == s.asked
                  && AreReports(s'.asked[|s.asked|..], user, channel, events, at)
                else s'.asked == s.asked)
  {
    hide Inv, WireText, SR.Apply, CppParse, ReportBody;
    at := ReportsAre(user, channel, events, sends);
    var more := ReportsOf(user, channel, events, sends);
    hide ReportsOf, AreSent, AreReports;
    assert s.asked + [] == s.asked;
    assert (s.asked + more)[|s.asked|..] == more && (s.asked + more)[..|s.asked|] == s.asked;
  }

  // ----- What a record of the client means -----

  lemma FoldedNext(asked: seq<Request>)
    requires asked != []
    ensures var n := |asked| - 1; Folded(map[], asked) == Track(Folded(map[], asked[..n]), asked[n])
  {
    var n := |asked| - 1;
    FoldedAppend(map[], asked[..n], [asked[n]]);
    assert asked[..n] + [asked[n]] == asked && [asked[n]][1..] == [];
  }

  /** What these requests leave subscribed is under the number of the last
      SUBSCRIBE, with no UNSUBSCRIBE behind it. */
  lemma {:induction false} LastSubscribe(asked: seq<Request>, ch: string) returns (k: nat)
    requires ch in Folded(map[], asked)
    ensures k < |asked| && asked[k].Subscribe? && asked[k].channel == ch && asked[k].id == Folded(map[], asked)[ch]
    ensures forall j | k < j < |asked| :: !((asked[j].Subscribe? || asked[j].Unsubscribe?) && asked[j].channel == ch)
    decreases |asked|
  {
    k := 0;
    if asked != [] {
      FoldedNext(asked);
      hide Folded;
      var n := |asked| - 1;
      if asked[n].Subscribe? && asked[n].channel == ch {
        k := n;
      } else {
        k := LastSubscribe(asked[..n], ch);
        assert forall j | k < j < n :: asked[j] == asked[..n][j];
      }
    }
  }

  /** The other way round. */
  lemma {:induction false} LastUnsubscribe(asked: seq<Request>, ch: string, k: nat)
    requires k < |asked| && asked[k].Unsubscribe? && asked[k].channel == ch
    requires forall j | k < j < |asked| :: !(asked[j].Subscribe? && asked[j].channel == ch)
    ensures ch !in Folded(map[], asked)
    decreases |asked|
  {
    FoldedNext(asked);
    hide Folded;
    var n := |asked| - 1;
    if k < n {
      assert forall j | k < j < n :: asked[j] == asked[..n][j];
      LastUnsubscribe(asked[..n], ch, k);
    }
  }

  /** The record of the client holds, for each channel, the number of the last
      SUBSCRIBE it has sent for it. */
  lemma RecordIsLast(s: Session, ch: string) returns (k: nat)
    requires Inv(s) && ch in s.client.subscriptions
    ensures k < |s.asked| && s.asked[k].Subscribe? && s.asked[k].channel == ch
    ensures s.asked[k].id == s.client.subscriptions[ch]
    ensures forall j | k < j < |s.asked| ::
              !((s.asked[j].Subscribe? || s.asked[j].Unsubscribe?) && s.asked[j].channel == ch)
  {
    RecordFolds(s);
    hide Inv, Folded;
    k := LastSubscribe(s.asked, ch);
  }

  lemma RecordFolds(s: Session)
    requires Inv(s)
    ensures Folded(map[], s.asked) == s.client.subscriptions
  {
    ConsistentFolds(map[], s.asked, s.client.subscriptions);
    hide Folded, Consistent, AskedInv, ServerInv, ClientInv, Earned, Answered, Clear;
  }

  /** So the UNSUBSCRIBE of exit carries the number of the last SUBSCRIBE for its
      channel. */
  lemma ExitUnsubscribesLast(s: Session, channel: string) returns (k: nat)
    requires Inv(s) && SessionRuns.Enabled(s, SessionRuns.Exit(channel, true)) && channel in s.client.subscriptions
    ensures k < |s.asked| && s.asked[k].Subscribe? && s.asked[k].channel == channel
    ensures forall j | k < j < |s.asked| :: !(s.asked[j].Subscribe? && s.asked[j].channel == channel)
    ensures var s' := SessionRuns.Apply(s, SessionRuns.Exit(channel, true));
            s'.asked == s.asked + [Unsubscribe(channel, s.asked[k].id, s.client.receiptNumber + 1)]
  {
    hide Inv, SessionRuns.Apply, SessionRuns.Enabled, UsesReceipts;
    ExitDoes(s, channel, true);
    k := RecordIsLast(s, channel);
  }

  // ----- What the server makes of it -----

  /** In a clear state the server holds for this connection what the requests
      processed so far leave subscribed. */
  ghost predicate Followed(s: Session)
    requires |s.fates| <= |s.asked|
  {
    View(s.server.tables, s.me) == Folded(map[], s.asked[..|s.fates|])
  }

  lemma {:induction false} FoldedSends(asked: seq<Request>, n: nat, d: nat)
    requires n + d <= |asked| && AllSends(asked, n, d)
    ensures Folded(map[], asked[..n + d]) == Folded(map[], asked[..n])
    decreases d
  {
    if d > 0 {
      FoldedSends(asked, n, d - 1);
      FoldedNext(asked[..n + d]);
      assert asked[..n + d][..n + d - 1] == asked[..n + d - 1] && asked[..n + d][n + d - 1] == asked[n + d - 1];
      hide Folded;
    }
  }

  lemma ArrivalFollows(s: Session, a: Act)
    requires Inv(s) && Followed(s) && Clear(s) && Arrives(s, a) && Clear(SessionRuns.Apply(s, a))
    ensures |SessionRuns.Apply(s, a).fates| <= |s.asked| && Followed(SessionRuns.Apply(s, a))
  {
    hide Inv, Clear, Sound, SessionRuns.Apply, SessionRuns.Enabled, SessionRuns.Called, Judged, Folded, View, AllSends,
         Refused, Throws, Fits, OwnAnswers, ErrorSince, HasError, SR.Apply, Track;
    var s', n := SessionRuns.Apply(s, a), |s.fates|;
    ArrivesIs(s, a);
    ArriveIs(s, a);
    ArriveGives(s, a);
    ClearIsJudged(s, a);
    ClearStep(s, a);
    DroppedOnly(a.drop);
    ClearIsSound(s');
    var thrown := SessionRuns.Called(s, a).thrown.Some?;
    AdvancedSound(s, thrown, a.drop, a.cut);
    SameSound(s', Advanced(s, thrown, a.drop, a.cut));
    FoldedAt(s.asked, n);
    if thrown {
      FoldedSends(s.asked, n + 1, a.drop);
    }
    hide HasNext, MayEndAt, Gives, Advanced;
  }

  lemma FoldedAt(asked: seq<Request>, n: nat)
    requires n < |asked|
    ensures Folded(map[], asked[..n + 1]) == Track(Folded(map[], asked[..n]), asked[n])
  {
    FoldedNext(asked[..n + 1]);
    hide Folded, Track;
    assert asked[..n + 1][..n] == asked[..n] && asked[..n + 1][n] == asked[n];
  }

  lemma ClearIsSound(s: Session)
    requires Clear(s)
    ensures Sound(s)
  {
  }

  lemma OthersFollow(s: Session, a: Act)
    requires Inv(s) && Followed(s) && !Arrives(s, a)
    ensures |SessionRuns.Apply(s, a).fates| <= |SessionRuns.Apply(s, a).asked| && Followed(SessionRuns.Apply(s, a))
  {
    hide Folded, View, Inv;
    OthersLeaveTheLink(s, a);
    FateIsAsked(s);
    var s', n := SessionRuns.Apply(s, a), |s.fates|;
    assert s'.asked[..n] == s.asked[..n];
    assert View(s'.server.tables, s'.me) == View(s.server.tables, s.me) by {
      if SessionRuns.Enabled(s, a) && a.Elsewhere? {
        ElsewhereIsAloof(s, a.step);
        hide SR.Apply, Earned, ServerInv;
      } else {
        hide SR.Apply, AfterJoin, AfterExit, AfterReport, AfterLogout, AfterAnswer;
      }
    }
    hide SessionRuns.Apply, Arrives;
  }

  lemma FateIsAsked(s: Session)
    requires Inv(s)
    ensures |s.fates| <= |s.asked|
  {
  }

  /** On every run that is clear so far, the server's subscriptions for this
      connection are those of the requests it has processed. */
  lemma {:induction false} ServerFollows(s: Session, steps: seq<SR.Step>, login: string, passcode: string,
                                         acts: seq<Act>, n: nat)
    requires Begins(s, steps, login, passcode) && n <= |acts| && Clear(After(s, acts, n))
    ensures |After(s, acts, n).fates| <= |After(s, acts, n).asked| && Followed(After(s, acts, n))
  {
    hide *;
    AfterStep(s, acts, n);
    if n == 0 {
      BeginsFollowed(s, steps, login, passcode);
    } else {
      var before := After(s, acts, n - 1);
      SessionKeeps(s, steps, login, passcode, acts, n - 1);
      ClearStep(before, acts[n - 1]);
      FateIsAsked(before);
      ServerFollows(s, steps, login, passcode, acts, n - 1);
      if Arrives(before, acts[n - 1]) {
        AskedGrows(before, acts[n - 1]);
        ArrivalFollows(before, acts[n - 1]);
      } else {
        OthersFollow(before, acts[n - 1]);
      }
    }
  }

  lemma BeginsFollowed(s: Session, steps: seq<SR.Step>, login: string, passcode: string)
    requires Begins(s, steps, login, passcode)
    ensures |s.fates| <= |s.asked| && Followed(s)
  {
    var n := |steps| - 1;
    hide SR.Apply;
    assert s.server == SR.Apply(SR.At(steps, n), SR.CountConnection);
    assert View(s.server.tables, s.me) == map[] by {
      BeginningAgreed(s, steps, login, passcode);
    }
    hide View;
    assert s.asked[..0] == [];
  }

  lemma BeginningAgreed(s: Session, steps: seq<SR.Step>, login: string, passcode: string)
    requires Begins(s, steps, login, passcode)
    ensures View(s.server.tables, s.me) == map[]
  {
    BeginsAgreed(s, steps, login, passcode);
    assert s.asked[0..] == [Connect(login, passcode)] && s.asked[0..][1..] == [];
    hide View, SR.At;
    assert Folded(View(s.server.tables, s.me), [Connect(login, passcode)]) == View(s.server.tables, s.me);
  }

  lemma {:induction false} AskedGrowsOver(s: Session, acts: seq<Act>, m: nat, n: nat)
    requires m <= n <= |acts|
    ensures After(s, acts, m).asked <= After(s, acts, n).asked
  {
    hide *;
    if m < n {
      AskedGrowsOver(s, acts, m, n - 1);
      AfterStep(s, acts, n);
      AskedGrows(After(s, acts, n - 1), acts[n - 1]);
      PrefixOfPrefix(After(s, acts, m).asked, After(s, acts, n - 1).asked, After(s, acts, n).asked);
    }
  }

  /** exit takes effect: in every later clear state in which its UNSUBSCRIBE has
      been processed, and no SUBSCRIBE for the channel behind it, the server
      holds no subscription of this connection to the channel. */
  lemma ExitTakesEffect(s: Session, steps: seq<SR.Step>, login: string, passcode: string,
                        acts: seq<Act>, m: nat, n: nat, channel: string)
    requires Begins(s, steps, login, passcode) && m < n <= |acts|
    requires acts[m] == SessionRuns.Exit(channel, true) && SessionRuns.Enabled(After(s, acts, m), acts[m])
    requires channel in After(s, acts, m).client.subscriptions
    requires Clear(After(s, acts, n)) && |After(s, acts, m).asked| < |After(s, acts, n).fates|
    requires var i, now := |After(s, acts, m).asked|, After(s, acts, n);
             forall j | i < j < |now.fates| && j < |now.asked| ::
               !(now.asked[j].Subscribe? && now.asked[j].channel == channel)
    ensures channel !in View(After(s, acts, n).server.tables, After(s, acts, n).me)
  {
    hide *;
    var was, now := After(s, acts, m), After(s, acts, n);
    SessionKeeps(s, steps, login, passcode, acts, m);
    ExitDoes(was, channel, true);
    AfterStep(s, acts, m + 1);
    AskedGrowsOver(s, acts, m + 1, n);
    ServerFollows(s, steps, login, passcode, acts, n);
    FollowedIs(now);
    var i := |was.asked|;
    var done := now.asked[..|now.fates|];
    assert After(s, acts, m + 1).asked[i].Unsubscribe? && After(s, acts, m + 1).asked[i].channel == channel;
    assert done[i] == now.asked[i] == After(s, acts, m + 1).asked[i];
    LastUnsubscribe(done, channel, i);
  }

  lemma FollowedIs(s: Session)
    requires |s.fates| <= |s.asked| && Followed(s)
    ensures View(s.server.tables, s.me) == Folded(map[], s.asked[..|s.fates|])
  {
  }

  /** Whatever has been lost, an UNSUBSCRIBE up to 127 that comes whole to a server
      that has the subscription, and no other under its number, cancels it. */
  lemma UnsubscribeCancels(s: Session, a: Act)
    requires Inv(s) && Arrives(s, a) && s.cut == 0 && s.me in s.server.tables.active
    requires Next(s).Unsubscribe? && Next(s).id <= 127
    requires Sane(View(s.server.tables, s.me)) && Fits(View(s.server.tables, s.me), Next(s))
    ensures View(SessionRuns.Apply(s, a).server.tables, s.me) == View(s.server.tables, s.me) - {Next(s).channel}
  {
    hide Inv, Judged, View, SessionRuns.Apply, SR.Apply, SessionRuns.Called, OwnAnswers, ErrorSince, HasError,
         SessionRuns.Enabled, Upset, Moved, Throws, Sane;
    ArrivesIs(s, a);
    ArriveIs(s, a);
    ArriveGives(s, a);
    WholeIsJudged(s, a);
    FittingIsUpset(s.server.tables, s.me, Next(s), a.orders);
    hide Fits, HasNext, MayEndAt, Advanced;
  }

  // ----- Frames from the server -----

  /** A frame that is read without failure: an ERROR closes the keyboard and the
      reading, a RECEIPT for DISCONNECT closes the reading, and nothing else does. */
  lemma HandleDoes(s: Session, order: seq<string>)
    requires Inv(s) && SessionRuns.Enabled(s, Handle(order)) && SessionRuns.Apply(s, Handle(order)).failed.None?
    ensures s.seen < |Mail(s)|
    ensures var s', f := SessionRuns.Apply(s, Handle(order)), Mail(s)[s.seen];
            var c, c' := s.client, s'.client;
            && s' == s.(client := c', seen := s.seen + 1)
            && c' == c.(terminateKeyboard := c'.terminateKeyboard,
                        terminateServerResponses := c'.terminateServerResponses)
            && (c'.terminateKeyboard <==> c.terminateKeyboard || f.command == "ERROR")
            && (c'.terminateServerResponses <==>
                  || f.command == "ERROR"
                  || (f.command == "RECEIPT" && "receipt-id" in f.headers && f.headers["receipt-id"] in c.receipts
                      && c.receipts[f.headers["receipt-id"]] == "DISCONNECT"))
  {
    hide Inv, JavaPrint, IsOrder, Mail, CppParse, ReadMessage, HasNext, Carried;
    MailReadsBack(s, s.seen, order);
    AnswerNamesDiffer();
  }

  /** A frame that makes the reading fail changes nothing else. */
  lemma FailureStops(s: Session, order: seq<string>)
    requires SessionRuns.Enabled(s, Handle(order)) && SessionRuns.Apply(s, Handle(order)).failed.Some?
    ensures SessionRuns.Apply(s, Handle(order)) == s.(failed := SessionRuns.Apply(s, Handle(order)).failed)
  {
    hide JavaPrint, IsOrder, Mail, AfterAnswer, HasNext, Carried;
  }

  lemma ErrorIsHandled(s: Session, order: seq<string>)
    requires Inv(s) && SessionRuns.Enabled(s, Handle(order))
    requires s.seen < |Mail(s)| && Mail(s)[s.seen].command == "ERROR"
    ensures var s' := SessionRuns.Apply(s, Handle(order));
            s'.failed.None? && s'.client.terminateKeyboard && s'.client.terminateServerResponses
  {
    hide Inv, JavaPrint, IsOrder, Mail, CppParse, ReadMessage, HasNext, Carried;
    MailReadsBack(s, s.seen, order);
    AnswerNamesDiffer();
    ErrorIsNothingElse();
  }

  lemma ErrorIsNothingElse()
    ensures "ERROR" != "RECEIPT" && "ERROR" != "MESSAGE"
  {
    AnswerNamesDiffer();
  }

  /** Nothing opens again what is closed. */
  lemma ClosedStep(s: Session, a: Act)
    requires Inv(s)
    ensures var c, c' := s.client, SessionRuns.Apply(s, a).client;
            && (c.terminateKeyboard ==> c'.terminateKeyboard)
            && (c.terminateServerResponses ==> c'.terminateServerResponses)
  {
    if SessionRuns.Enabled(s, a) && a.Handle? {
      if SessionRuns.Apply(s, a).failed.None? {
        HandleDoes(s, a.order);
      } else {
        FailureStops(s, a.order);
      }
      hide Inv, Mail, SessionRuns.Apply, IsOrder;
    } else {
      hide Inv, SR.Apply, AfterAnswer, ToString, ReportsOf, Mail;
    }
  }

  lemma {:induction false} ClosedForEver(s: Session, acts: seq<Act>, m: nat, n: nat)
    requires Inv(s) && m <= n <= |acts|
    ensures var c, c' := After(s, acts, m).client, After(s, acts, n).client;
            && (c.terminateKeyboard ==> c'.terminateKeyboard)
            && (c.terminateServerResponses ==> c'.terminateServerResponses)
  {
    hide *;
    if m < n {
      ClosedForEver(s, acts, m, n - 1);
      AfterStep(s, acts, n);
      InvKeeps(s, acts, n - 1);
      ClosedStep(After(s, acts, n - 1), acts[n - 1]);
    }
  }

  /** An ERROR ends the session: once the client has read one, in no later state
      is a command taken or a frame read. */
  lemma ErrorEndsIt(s: Session, steps: seq<SR.Step>, login: string, passcode: string, acts: seq<Act>, m: nat, n: nat,
                    a: Act)
    requires Begins(s, steps, login, passcode) && m < n <= |acts|
    requires acts[m].Handle? && SessionRuns.Enabled(After(s, acts, m), acts[m])
    requires var was := After(s, acts, m); was.seen < |Mail(was)| && Mail(was)[was.seen].command == "ERROR"
    requires a.Join? || a.Exit? || a.Report? || a.Logout? || a.Handle?
    ensures !SessionRuns.Enabled(After(s, acts, n), a)
  {
    hide *;
    SessionKeeps(s, steps, login, passcode, acts, m);
    BeginningInv(s, steps, login, passcode);
    ErrorIsHandled(After(s, acts, m), acts[m].order);
    AfterStep(s, acts, m + 1);
    ClosedForEver(s, acts, m + 1, n);
    ClosedIsDisabled(After(s, acts, n), a);
  }

  lemma ClosedIsDisabled(s: Session, a: Act)
    requires s.client.terminateKeyboard && s.client.terminateServerResponses
    requires a.Join? || a.Exit? || a.Report? || a.Logout? || a.Handle?
    ensures !SessionRuns.Enabled(s, a)
  {
    hide Mail, IsOrder, Carried;
  }
}
