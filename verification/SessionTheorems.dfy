/** What holds in every state that a session can reach. */
module SessionTheorems {
  import opened Text
  import opened Decimal
  import opened StompFrames
  import opened ConnectionTables
  import opened ServerProtocol
  import SR = ServerRuns
  import opened ServerView
  import opened BroadcastHistory
  import opened LoginTables
  import opened ClientSession
  import opened OneCall
  import opened OwnRequests
  import opened SessionRuns
  import opened SessionInvariant

  // ----- What can go wrong, as seen before the act -----

  predicate Arrives(s: Session, a: Act) {
    a.Arrive? && SessionRuns.Enabled(s, a)
  }

  function Next(s: Session): Request
    requires HasNext(s)
  {
    s.asked[|s.fates|]
  }

  /** A CONNECT whose login is not to be had, or an UNSUBSCRIBE above 127. */
  predicate IsRefused(s: Session, a: Act) {
    Arrives(s, a) && Refused(s.server.tables, Next(s))
  }

  /** A SEND whose channel has a null key, with more behind it in its chunk than
      whole SENDs. */
  predicate MeetsNull(s: Session, a: Act) {
    && Arrives(s, a) && Next(s).Send? && HasNull(s.server.tables, Next(s).channel)
    && (a.cut > 0 || !AllSends(s.asked, |s.fates| + 1, a.drop))
  }

  /** A call that throws, with something behind it in its chunk. */
  predicate Loses(s: Session, a: Act) {
    Arrives(s, a) && Judged(s, a).throws && (a.drop > 0 || a.cut > 0)
  }

  /** A text that gets an ERROR: of a connection that is there, a request that
      does not fit its subscriptions or a login that is not to be had, or, of a
      torn request, a rest that reads like one. */
  predicate IsUpset(s: Session, a: Act) {
    && Arrives(s, a) && s.me in s.server.tables.active
    && if s.cut == 0 then Upset(s.server.tables, s.me, Next(s)) else TextUpset(s.server.tables, s.me, NextText(s))
  }

  // ----- One act -----

  lemma OthersLeaveTheLink(s: Session, a: Act)
    requires !Arrives(s, a)
    ensures SessionRuns.Apply(s, a).fates == s.fates && SessionRuns.Apply(s, a).cut == s.cut
    ensures s.asked <= SessionRuns.Apply(s, a).asked
  {
    hide SR.Apply, AfterJoin, AfterExit, AfterReport, AfterLogout, AfterAnswer;
  }

  /** The link stays intact exactly when the act loses nothing. */
  lemma IntactStep(s: Session, a: Act)
    requires Inv(s)
    ensures Intact(SessionRuns.Apply(s, a)) <==> Intact(s) && !Loses(s, a)
  {
    hide Intact, Inv;
    if Arrives(s, a) {
      ArriveIs(s, a);
      ArriveGives(s, a);
      AdvancedIntact(s, SessionRuns.Called(s, a).thrown.Some?, a.drop, a.cut);
      hide SessionRuns.Called, SessionRuns.Apply, SessionRuns.Enabled, Advanced, Judged, View, OwnAnswers;
      SameLinkIntact(SessionRuns.Apply(s, a), Advanced(s, SessionRuns.Called(s, a).thrown.Some?, a.drop, a.cut));
    } else {
      OthersLeaveTheLink(s, a);
      hide SessionRuns.Apply, SessionRuns.Enabled;
      SameLinkIntact(SessionRuns.Apply(s, a), s);
    }
  }

  lemma SameLinkIntact(s: Session, s': Session)
    requires s.fates == s'.fates && s.cut == s'.cut
    ensures Intact(s) <==> Intact(s')
  {
  }

  lemma SentGrows(s: Session, a: Act)
    requires Inv(s)
    ensures s.server.tables.sent <= SessionRuns.Apply(s, a).server.tables.sent
    ensures SessionRuns.Apply(s, a).me == s.me
  {
    if SessionRuns.Enabled(s, a) {
      match a
      case Elsewhere(step) => ElsewhereIsAloof(s, step);
      case Arrive(_, _, _) => ArriveEarns(s, a);
      case _ => hide Inv;
    }
  }

  /** Other acts send this connection no ERROR. */
  lemma OthersSendNoError(s: Session, a: Act)
    requires Inv(s) && !Arrives(s, a)
    ensures !ErrorSince(s.server.tables, SessionRuns.Apply(s, a).server.tables, s.me)
  {
    AnswerNamesDiffer();
    if SessionRuns.Enabled(s, a) && a.Elsewhere? {
      ElsewhereIsAloof(s, a.step);
      hide View, Inv, SR.Apply, Earned, ServerInv;
    } else {
      hide Inv;
    }
  }

  /** DISCONNECT is the last request, so that nothing is behind it. */
  lemma NothingBehindDisconnect(s: Session, a: Act)
    requires Inv(s) && Arrives(s, a) && Next(s).Disconnect?
    ensures a.drop == 0 && a.cut == 0
  {
    NothingAfterDisconnect(s.client, s.asked, |s.fates|);
    hide Inv, WireText;
  }

  lemma NothingAfterDisconnect(c: Client, asked: seq<Request>, k: nat)
    requires AskedInv(c, asked)
    ensures k < |asked| - 1 ==> !asked[k].Disconnect?
  {
    if k < |asked| - 1 {
      assert Later(asked[k], asked[|asked| - 1]);
    }
  }

  /** When an arrival is sent an ERROR. */
  lemma ErrorIff(s: Session, a: Act)
    requires Inv(s)
    ensures ErrorSince(s.server.tables, SessionRuns.Apply(s, a).server.tables, s.me) <==> IsUpset(s, a)
  {
    if Arrives(s, a) {
      ArriveIs(s, a);
      ArriveGives(s, a);
      UpsetIff(s.server.tables, s.me, NextText(s), a.orders);
      if s.cut == 0 {
        WholeIsJudged(s, a);
        GoneIsSilent(s, a);
      }
      hide Inv, SessionRuns.Apply, SessionRuns.Enabled, SR.Apply, SessionRuns.Called, Gives, ErrorSince, HasError,
           Upset, Moved, Throws, Judged, NextText, View;
    } else {
      OthersSendNoError(s, a);
    }
  }

  lemma GoneIsSilent(s: Session, a: Act)
    requires Arrives(s, a)
    ensures HasError(Judged(s, a).answers) <==> TextUpset(s.server.tables, s.me, NextText(s))
  {
    hide NextText, TextUpset, View, HasError, FrameVerdict, JavaParse;
    UpsetIff(s.server.tables, s.me, NextText(s), a.orders);
  }

  /** What the loss of anything but SENDs depends on, in a clear state. */
  lemma SoundArrival(s: Session, a: Act)
    requires Inv(s) && Clear(s) && Arrives(s, a)
    ensures Sound(SessionRuns.Apply(s, a)) <==> !MeetsNull(s, a)
  {
    ArriveIs(s, a);
    ArriveAgrees(s, a);
    var thrown := SessionRuns.Called(s, a).thrown.Some?;
    AdvancedSound(s, thrown, a.drop, a.cut);
    SameSound(SessionRuns.Apply(s, a), Advanced(s, thrown, a.drop, a.cut));
    if Next(s).Disconnect? {
      NothingBehindDisconnect(s, a);
    }
    hide Inv, Sound, SessionRuns.Called, SessionRuns.Apply, SessionRuns.Enabled, Advanced, SR.Apply, HasNull,
         Refused, Fits, ErrorSent, Served, TurnedDown;
  }

  lemma RefusedIsUpset(s: Session, a: Act)
    requires Inv(s) && Clear(s)
    ensures IsRefused(s, a) <==> IsUpset(s, a)
  {
    if Arrives(s, a) {
      ClearIsThere(s);
      ArriveAgrees(s, a);
      FittingIsUpset(s.server.tables, s.me, Next(s), a.orders);
      hide Inv, SessionRuns.Apply, SessionRuns.Enabled, SR.Apply, SessionRuns.Called, Upset, Refused, Fits, View,
           Sane, Moved, Throws, Served, TurnedDown;
    }
  }

  lemma SoundStaysOrNever(s: Session, a: Act)
    requires Inv(s)
    ensures Sound(SessionRuns.Apply(s, a)) ==> Sound(s)
    ensures !Arrives(s, a) ==> (Sound(SessionRuns.Apply(s, a)) <==> Sound(s))
  {
    if Arrives(s, a) {
      ArriveIs(s, a);
      var thrown := SessionRuns.Called(s, a).thrown.Some?;
      AdvancedSound(s, thrown, a.drop, a.cut);
      SameSound(SessionRuns.Apply(s, a), Advanced(s, thrown, a.drop, a.cut));
    } else {
      OthersLeaveTheLink(s, a);
      assert |s.fates| <= |s.asked|;
    }
    hide Inv, SessionRuns.Apply, SessionRuns.Called, SessionRuns.Enabled, SR.Apply, Advanced;
  }

  /** A clear state stays clear exactly when nothing is refused and no SEND
      meets a null key with more behind it than SENDs. */
  lemma ClearStep(s: Session, a: Act)
    requires Inv(s)
    ensures Clear(SessionRuns.Apply(s, a)) ==> Clear(s)
    ensures Clear(s) ==> (Clear(SessionRuns.Apply(s, a)) <==> !IsRefused(s, a) && !MeetsNull(s, a))
  {
    SentGrows(s, a);
    ErrorsStay(s.server.tables, SessionRuns.Apply(s, a).server.tables, s.me);
    ErrorIff(s, a);
    SoundStaysOrNever(s, a);
    hide Inv, SessionRuns.Apply, SessionRuns.Enabled, Sound, ErrorSent, ErrorSince, Refused, IsUpset, HasNull;
    if Clear(s) {
      RefusedIsUpset(s, a);
      if Arrives(s, a) {
        SoundArrival(s, a);
      }
    }
  }

  // ----- Runs -----

  lemma {:induction false} InvKeeps(s: Session, acts: seq<Act>, n: nat)
    requires Inv(s) && n <= |acts|
    ensures Inv(After(s, acts, n))
  {
    hide *;
    AfterStep(s, acts, n);
    if n > 0 {
      InvKeeps(s, acts, n - 1);
      ActKeeps(After(s, acts, n - 1), acts[n - 1]);
    }
  }

  lemma AfterStep(s: Session, acts: seq<Act>, n: nat)
    requires n <= |acts|
    ensures After(s, acts, n) == if n == 0 then s else SessionRuns.Apply(After(s, acts, n - 1), acts[n - 1])
  {
    hide SessionRuns.Apply;
  }

  /** Nothing has been lost exactly when no call has thrown with something
      behind it in its chunk. */
  lemma {:induction false} IntactIff(s: Session, acts: seq<Act>, n: nat)
    requires n <= |acts| && Inv(s) && Intact(s)
    ensures Intact(After(s, acts, n)) <==> forall k | 0 <= k < n :: !Loses(After(s, acts, k), acts[k])
  {
    hide *;
    AfterStep(s, acts, n);
    if n > 0 {
      IntactIff(s, acts, n - 1);
      InvKeeps(s, acts, n - 1);
      IntactStep(After(s, acts, n - 1), acts[n - 1]);
    }
  }

  /** No ERROR has been sent to this client, and nothing but SENDs has been lost,
      exactly when no CONNECT came whose login was not to be had, no UNSUBSCRIBE
      above 127, and no SEND to a channel with a null key and with more behind it
      in its chunk than SENDs. */
  lemma {:induction false} ClearIff(s: Session, steps: seq<SR.Step>, login: string, passcode: string, acts: seq<Act>,
                                    n: nat)
    requires Begins(s, steps, login, passcode) && n <= |acts|
    ensures Clear(After(s, acts, n)) <==>
            forall k | 0 <= k < n :: !IsRefused(After(s, acts, k), acts[k]) && !MeetsNull(After(s, acts, k), acts[k])
  {
    hide *;
    AfterStep(s, acts, n);
    if n == 0 {
      BeginsClear(s, steps, login, passcode);
    } else {
      ClearIff(s, steps, login, passcode, acts, n - 1);
      SessionKeeps(s, steps, login, passcode, acts, n - 1);
      ClearStep(After(s, acts, n - 1), acts[n - 1]);
    }
  }

  lemma BeginsClear(s: Session, steps: seq<SR.Step>, login: string, passcode: string)
    requires Begins(s, steps, login, passcode)
    ensures Clear(s)
  {
    BeginningInv(s, steps, login, passcode);
    if ErrorSent(s.server.tables.sent, s.me) {
      var i :| 0 <= i < |s.server.tables.sent| && s.server.tables.sent[i].to == s.me;
      NotInInbox(s.server.tables.sent, s.me, i);
      FreshMail(s, steps, login, passcode);
      assert false;
    }
  }

  lemma FreshMail(s: Session, steps: seq<SR.Step>, login: string, passcode: string)
    requires Begins(s, steps, login, passcode)
    ensures Mail(s) == []
  {
    var n := |steps| - 1;
    assert s.server == SR.Apply(SR.At(steps, n), SR.CountConnection);
    NewcomersAreFresh(steps, n, s.me);
  }

  // ----- Agreement on subscriptions -----

  /** In a clear state the server's subscriptions for this connection, after the
      requests still under way, are the client's; with nothing under way they
      are equal. */
  lemma ViewsAgree(s: Session, steps: seq<SR.Step>, login: string, passcode: string, acts: seq<Act>)
    requires Begins(s, steps, login, passcode) && Clear(After(s, acts, |acts|))
    ensures var now := After(s, acts, |acts|);
            && |now.fates| <= |now.asked|
            && Consistent(View(now.server.tables, now.me), now.asked[|now.fates|..], now.client.subscriptions)
            && (|now.fates| == |now.asked| ==> View(now.server.tables, now.me) == now.client.subscriptions)
  {
    SessionKeeps(s, steps, login, passcode, acts, |acts|);
    hide Begins, After, Clear, View;
  }

  function Joins(acts: seq<Act>, n: nat): nat
    requires n <= |acts|
  {
    if n == 0 then 0 else Joins(acts, n - 1) + if acts[n - 1].Join? then 1 else 0
  }

  lemma {:induction false} IdsAreJoins(s: Session, acts: seq<Act>, n: nat)
    requires n <= |acts|
    ensures After(s, acts, n).client.subscriptionId <= s.client.subscriptionId + Joins(acts, n)
  {
    if n > 0 {
      IdsAreJoins(s, acts, n - 1);
      IdStep(After(s, acts, n - 1), acts[n - 1]);
      hide SessionRuns.Apply;
    }
  }

  lemma IdStep(s: Session, a: Act)
    ensures SessionRuns.Apply(s, a).client.subscriptionId <= s.client.subscriptionId + if a.Join? then 1 else 0
  {
    hide SR.Apply, SessionRuns.Called, WireText, CppParse;
  }

  lemma {:induction false} FirstIsConnect(s: Session, acts: seq<Act>, n: nat)
    requires n <= |acts| && |s.asked| > 0
    ensures |After(s, acts, n).asked| > 0 && After(s, acts, n).asked[0] == s.asked[0]
  {
    if n > 0 {
      FirstIsConnect(s, acts, n - 1);
      AskedGrows(After(s, acts, n - 1), acts[n - 1]);
      hide SessionRuns.Apply;
    }
  }

  lemma AskedGrows(s: Session, a: Act)
    ensures s.asked <= SessionRuns.Apply(s, a).asked
  {
    hide SR.Apply, SessionRuns.Called, WireText, CppParse, AfterAnswer, AfterJoin, AfterExit, AfterReport,
         AfterLogout;
  }

  /** With a login that is to be had when CONNECT arrives, at most 128 joins, and
      no null key met with something behind, the client is never refused
      anything and both sides agree in every state. */
  lemma {:induction false} CarefulClientsAgree(s: Session, steps: seq<SR.Step>, login: string, passcode: string,
                                               acts: seq<Act>, n: nat)
    requires Begins(s, steps, login, passcode) && n <= |acts|
    requires Joins(acts, |acts|) <= 128
    requires forall k | 0 <= k < |acts| && Arrives(After(s, acts, k), acts[k]) && After(s, acts, k).fates == [] ::
               MayConnect(After(s, acts, k).server.tables, login, Some(passcode))
    requires forall k | 0 <= k < |acts| :: !MeetsNull(After(s, acts, k), acts[k])
    ensures Clear(After(s, acts, n))
    ensures var now := After(s, acts, n);
            && |now.fates| <= |now.asked|
            && Consistent(View(now.server.tables, now.me), now.asked[|now.fates|..], now.client.subscriptions)
  {
    ClearIff(s, steps, login, passcode, acts, n);
    forall k | 0 <= k < n
      ensures !IsRefused(After(s, acts, k), acts[k])
    {
      NotRefused(s, steps, login, passcode, acts, k);
    }
    SessionKeeps(s, steps, login, passcode, acts, n);
    hide After, View, Consistent, IsRefused, MeetsNull, Arrives, Begins;
  }

  lemma {:induction false} JoinsGrow(acts: seq<Act>, m: nat, n: nat)
    requires m <= n <= |acts|
    ensures Joins(acts, m) <= Joins(acts, n)
  {
    if m < n {
      JoinsGrow(acts, m, n - 1);
    }
  }

  lemma NotRefused(s: Session, steps: seq<SR.Step>, login: string, passcode: string, acts: seq<Act>, k: nat)
    requires Begins(s, steps, login, passcode) && k < |acts| && Joins(acts, |acts|) <= 128
    requires Arrives(After(s, acts, k), acts[k]) && After(s, acts, k).fates == [] ==>
               MayConnect(After(s, acts, k).server.tables, login, Some(passcode))
    ensures !IsRefused(After(s, acts, k), acts[k])
  {
    var now := After(s, acts, k);
    assert s.asked == [Connect(login, passcode)] && s.client.subscriptionId == 0;
    SessionKeeps(s, steps, login, passcode, acts, k);
    IdsAreJoins(s, acts, k);
    JoinsGrow(acts, k, |acts|);
    FirstIsConnect(s, acts, k);
    hide After, Begins, Joins;
    if Arrives(now, acts[k]) {
      assert Filed(now.client, Next(now));
      assert |now.fates| > 0 ==> Later(now.asked[0], Next(now));
      hide Inv, SessionRuns.Enabled;
    }
  }

  /** In a clear state the next request is answered with ERROR exactly when it
      is refused, and otherwise carried out and answered as it asks.  A SEND is
      always accepted.  The call throws exactly over a null key: on the channel
      of a SEND, or, for DISCONNECT, before the last key of some channel. */
  lemma NextRequestIsServed(s: Session, steps: seq<SR.Step>, login: string, passcode: string, acts: seq<Act>, a: Act)
    requires Begins(s, steps, login, passcode)
    requires Clear(After(s, acts, |acts|)) && Arrives(After(s, acts, |acts|), a)
    ensures var now := After(s, acts, |acts|);
            var t, t', r := now.server.tables, SessionRuns.Apply(now, a).server.tables, Next(now);
            && (ErrorSince(t, t', now.me) <==> Refused(t, r))
            && (!Refused(t, r) ==> Served(t, t', now.me, r))
            && (r.Send? ==> AcceptedOn(now.server, NextStep(now, a.orders)) == Some(r.channel))
            && (SessionRuns.Called(now, a).thrown.Some? <==> Throws(t, r, a.orders))
  {
    SessionKeeps(s, steps, login, passcode, acts, |acts|);
    hide After, Begins;
    var now := After(s, acts, |acts|);
    ArriveIs(now, a);
    ArriveAgrees(now, a);
    if Next(now).Send? {
      NextSendIsAccepted(now, a);
    }
    hide Inv, Clear, SessionRuns.Called, SessionRuns.Apply, SessionRuns.Enabled, Advanced, SR.Apply, Throws, Refused,
         Fits, AcceptedOn, WireText;
  }

  lemma NextSendIsAccepted(now: Session, a: Act)
    requires Inv(now) && Clear(now) && Arrives(now, a) && Next(now).Send?
    ensures AcceptedOn(now.server, NextStep(now, a.orders)) == Some(Next(now).channel)
  {
    hide SR.Called, WireText, Served, Refused, Throws, AcceptedOn, ClientInv, Earned, View, Consistent, Sendable,
         TurnedDown, Answered;
    ArriveAgrees(now, a);
    ClearIsThere(now);
    var r := Next(now);
    assert Filed(now.client, r);
    assert WireText(r)[0..] == WireText(r);
    assert r.channel in View(now.server.tables, now.me);
    SubscriberIsAccepted(now.server, now.me, r, a.orders);
  }

  /** Receipt numbers and subscription numbers are never used twice. */
  lemma NumbersAreFresh(s: Session, steps: seq<SR.Step>, login: string, passcode: string, acts: seq<Act>, i: nat,
                        j: nat)
    requires Begins(s, steps, login, passcode) && i < j < |After(s, acts, |acts|).asked|
    ensures var a, b := After(s, acts, |acts|).asked[i], After(s, acts, |acts|).asked[j];
            && (Receipt(a).Some? && Receipt(b).Some? ==> Receipt(a).value < Receipt(b).value)
            && (a.Subscribe? && b.Subscribe? ==> a.id < b.id)
  {
    SessionKeeps(s, steps, login, passcode, acts, |acts|);
    hide Begins, After, SessionRuns.Apply;
    assert Later(After(s, acts, |acts|).asked[i], After(s, acts, |acts|).asked[j]);
  }

  // ----- Receipts -----

  /** Every RECEIPT in the inbox either names exactly one request, one that was
      processed, and is filed under its command, or it answers what was left of
      a torn request.  The client runs behind the end of its table only after
      such a request: FailsIff says when. */
  lemma ReceiptsAreKnown(s: Session, steps: seq<SR.Step>, login: string, passcode: string, acts: seq<Act>, i: nat)
    requires Begins(s, steps, login, passcode)
    requires i < |Mail(After(s, acts, |acts|))| && Mail(After(s, acts, |acts|))[i].command == "RECEIPT"
    ensures var now := After(s, acts, |acts|);
            && |now.fates| <= |now.asked|
            && (now.failed == Some(EndDereferenced) ==> HasTorn(now.fates))
            && exists k :: 0 <= k < |now.fates| && Known(now, Mail(now)[i], k)
  {
    SessionKeeps(s, steps, login, passcode, acts, |acts|);
    hide Begins, After, SessionRuns.Apply;
    ReceiptIsKnown(After(s, acts, |acts|), i);
  }

  /** What request `k` has to do with this RECEIPT. */
  predicate Known(now: Session, f: Frame, k: nat)
    requires k < |now.fates| <= |now.asked|
  {
    match now.fates[k]
    case Whole =>
      && Acknowledges(f, now.asked[k])
      && "receipt-id" in f.headers && f.headers["receipt-id"] in now.client.receipts
      && now.client.receipts[f.headers["receipt-id"]] == FrameOf(now.asked[k]).command
      && forall m | 0 <= m < |now.asked| && Acknowledges(f, now.asked[m]) :: m == k
    case Skipped => false
    case Torn(cut) => AnswersTorn(f, now.asked[k], cut)
  }

  lemma OneIsAcknowledged(now: Session, f: Frame, k: nat, m: nat)
    requires AskedInv(now.client, now.asked) && k < |now.asked| && m < |now.asked|
    requires Acknowledges(f, now.asked[k]) && Acknowledges(f, now.asked[m])
    ensures m == k
  {
    var a, b := now.asked[m], now.asked[k];
    assert Filed(now.client, a) && Filed(now.client, b);
    assert (m < k ==> Later(a, b)) && (k < m ==> Later(b, a));
    assert f.headers["receipt-id"] == ToString(Receipt(a).value) == ToString(Receipt(b).value);
    ToStringInjective(Receipt(a).value, Receipt(b).value);
  }

  lemma ReceiptIsKnown(now: Session, i: nat)
    requires Inv(now) && i < |Mail(now)| && Mail(now)[i].command == "RECEIPT"
    ensures |now.fates| <= |now.asked| && (now.failed == Some(EndDereferenced) ==> HasTorn(now.fates))
    ensures exists k :: 0 <= k < |now.fates| && Known(now, Mail(now)[i], k)
  {
    ReceiptIsEarned(now, i);
    var f := Mail(now)[i];
    var k :| 0 <= k < |now.fates| && Earns(f, now.asked[k], now.fates[k]);
    if now.fates[k].Whole? {
      AcknowledgedIsFiled(now, f, k);
      forall m | 0 <= m < |now.asked| && Acknowledges(f, now.asked[m])
        ensures m == k
      {
        OneIsAcknowledged(now, f, k, m);
      }
    }
    hide Inv, Mail, HasTorn, AskedInv;
    assert Known(now, f, k);
  }

  lemma {:induction false} RepliesHaveNoError(asked: seq<Request>, fates: seq<Fate>)
    requires |fates| <= |asked|
    ensures !HasError(RepliesTo(asked, fates))
  {
    if fates != [] {
      var n := |fates| - 1;
      RepliesHaveNoError(asked, fates[..n]);
      AnswerNamesDiffer();
      HasErrorMore(RepliesTo(asked, fates[..n]), if fates[n].Whole? then Reply(asked[n]) else []);
    }
  }

  /** As long as no torn request has been taken for a frame, the answers in the
      inbox are those of the processed requests, one each, in the order in which
      they were asked, exactly when there is no ERROR among them. */
  lemma RepliesComeInOrder(s: Session, steps: seq<SR.Step>, login: string, passcode: string, acts: seq<Act>)
    requires Begins(s, steps, login, passcode) && !HasTorn(After(s, acts, |acts|).fates)
    ensures var now := After(s, acts, |acts|);
            && |now.fates| <= |now.asked|
            && (Replied(Mail(now)) == RepliesTo(now.asked, now.fates) <==> !ErrorSent(now.server.tables.sent, now.me))
  {
    SessionKeeps(s, steps, login, passcode, acts, |acts|);
    var now := After(s, acts, |acts|);
    HasAnswered(now);
    ErrorsAreAnswers(now.server.tables.sent, now.me);
    RepliesHaveNoError(now.asked, now.fates);
    hide Begins, After, HasTorn, Inv, RepliesTo, HasError, Inbox, Replied;
  }

  predicate IsLogoutReceipt(now: Session, f: Frame) {
    && f.command == "RECEIPT" && "receipt-id" in f.headers && f.headers["receipt-id"] in now.client.receipts
    && now.client.receipts[f.headers["receipt-id"]] == "DISCONNECT"
  }

  /** When the inbox holds a RECEIPT for DISCONNECT, every request has been
      processed exactly when no call has thrown with something behind it in its
      chunk.  If no torn request was taken for a frame, nothing is under way any
      more and the keyboard is closed. */
  lemma DisconnectIsLast(s: Session, steps: seq<SR.Step>, login: string, passcode: string, acts: seq<Act>, i: nat)
    requires Begins(s, steps, login, passcode)
    requires var now := After(s, acts, |acts|); i < |Mail(now)| && IsLogoutReceipt(now, Mail(now)[i])
    ensures var now := After(s, acts, |acts|);
            && (AllProcessed(now) <==> forall k | 0 <= k < |acts| :: !Loses(After(s, acts, k), acts[k]))
            && (!HasTorn(now.fates) ==> |now.fates| == |now.asked| && now.client.terminateKeyboard)
  {
    hide *;
    var now := After(s, acts, |acts|);
    SessionKeeps(s, steps, login, passcode, acts, |acts|);
    BeginningInv(s, steps, login, passcode);
    BeginsIntact(s, steps, login, passcode);
    IntactIff(s, acts, |acts|);
    IntactOrTorn(now);
    if !HasTorn(now.fates) {
      DisconnectEndsIt(now, i);
    }
  }

  predicate AllProcessed(s: Session) {
    |s.fates| == |s.asked| && forall k | 0 <= k < |s.fates| :: s.fates[k].Whole?
  }

  lemma IntactOrTorn(s: Session)
    requires Inv(s)
    ensures Intact(s) ==> !HasTorn(s.fates)
    ensures AllProcessed(s) <==> Intact(s) && |s.fates| == |s.asked|
  {
    hide ServerInv, ClientInv, AskedInv, Earned, Answered, Clear, Agreed;
  }

  lemma BeginsIntact(s: Session, steps: seq<SR.Step>, login: string, passcode: string)
    requires Begins(s, steps, login, passcode)
    ensures Intact(s)
  {
  }

  lemma DisconnectEndsIt(now: Session, i: nat)
    requires Inv(now) && i < |Mail(now)| && IsLogoutReceipt(now, Mail(now)[i]) && !HasTorn(now.fates)
    ensures |now.fates| == |now.asked| && now.cut == 0 && now.client.terminateKeyboard
  {
    ReceiptIsEarned(now, i);
    var k :| 0 <= k < |now.fates| && now.fates[k].Whole? && Acknowledges(Mail(now)[i], now.asked[k]);
    CommandsDiffer(now.asked[k]);
    AcknowledgedIsFiled(now, Mail(now)[i], k);
    assert Filed(now.client, now.asked[k]);
    NothingAfterDisconnect(now.client, now.asked, k);
    hide Earned, ServerInv, Mail, AskedInv, ClientInv, Clear, HasTorn, Answered;
  }

  // ----- What is lost before DISCONNECT -----

  /** A SEND of a subscriber over a null key, with something behind it in its
      chunk. */
  predicate StopsOverNull(s: Session, a: Act) {
    && Arrives(s, a) && s.cut == 0 && s.me in s.server.tables.active
    && Next(s).Send? && !Upset(s.server.tables, s.me, Next(s)) && HasNull(s.server.tables, Next(s).channel)
    && (a.drop > 0 || a.cut > 0)
  }

  lemma StoppingLoses(s: Session, a: Act)
    requires Inv(s)
    ensures StopsOverNull(s, a) ==> Loses(s, a)
    ensures Loses(s, a) && s.cut == 0 && s.me in s.server.tables.active ==> StopsOverNull(s, a)
  {
    if Arrives(s, a) && s.cut == 0 && s.me in s.server.tables.active {
      WholeIsJudged(s, a);
      if Next(s).Disconnect? {
        NothingBehindDisconnect(s, a);
      }
      hide Inv, Judged, Upset, Moved, View, HasNull, SessionRuns.Enabled, HasError, Reply;
    }
  }

  /** A connection that has been removed is never answered again. */
  lemma GoneStep(s: Session, a: Act)
    requires Inv(s) && s.me !in s.server.tables.active
    ensures var s' := SessionRuns.Apply(s, a);
            && s'.me == s.me && s.me !in s'.server.tables.active
            && OwnAnswers(s'.server.tables.sent, s.me) == OwnAnswers(s.server.tables.sent, s.me)
  {
    if Arrives(s, a) {
      ArriveIs(s, a);
      ArriveGives(s, a);
      GoneAnswers(s, a);
      assert OwnAnswers(s.server.tables.sent, s.me) + [] == OwnAnswers(s.server.tables.sent, s.me);
      hide Inv, SessionRuns.Apply, SessionRuns.Enabled, SR.Apply, SessionRuns.Called, View, OwnAnswers, Judged,
           ErrorSince, HasError;
    } else if SessionRuns.Enabled(s, a) && a.Elsewhere? {
      ElsewhereIsAloof(s, a.step);
      NoNewAnswers(s.server.tables.sent, SR.Apply(s.server, a.step).tables.sent, s.me);
      hide View, Inv, SR.Apply, Earned, ServerInv, OwnAnswers;
    } else {
      hide Inv;
    }
  }

  lemma GoneAnswers(s: Session, a: Act)
    requires Arrives(s, a) && s.me !in s.server.tables.active
    ensures Judged(s, a).answers == []
  {
    hide NextText, View, JavaParse;
  }

  lemma {:induction false} GoneForEver(s: Session, acts: seq<Act>, m: nat, n: nat)
    requires Inv(s) && m <= n <= |acts| && After(s, acts, m).me !in After(s, acts, m).server.tables.active
    ensures var was, now := After(s, acts, m), After(s, acts, n);
            && now.me == was.me && now.me !in now.server.tables.active
            && OwnAnswers(now.server.tables.sent, now.me) == OwnAnswers(was.server.tables.sent, was.me)
            && was.asked <= now.asked
  {
    hide *;
    if m < n {
      GoneForEver(s, acts, m, n - 1);
      AfterStep(s, acts, n);
      InvKeeps(s, acts, n - 1);
      var before := After(s, acts, n - 1);
      GoneStep(before, acts[n - 1]);
      AskedGrows(before, acts[n - 1]);
      PrefixOfPrefix(After(s, acts, m).asked, before.asked, After(s, acts, n).asked);
    }
  }

  lemma PrefixOfPrefix<T>(a: seq<T>, b: seq<T>, c: seq<T>)
    requires a <= b <= c
    ensures a <= c
  {
  }

  lemma {:induction false} RepliedIn(frames: seq<Frame>, f: Frame)
    ensures f in Replied(frames) <==> f in frames && f.command != "MESSAGE"
  {
    if frames != [] {
      var n := |frames| - 1;
      RepliedIn(frames[..n], f);
      assert frames == frames[..n] + [frames[n]];
    }
  }

  /** With more requests to come, and nothing lost so far, there has been no
      RECEIPT for DISCONNECT, and there will be none for a removed connection. */
  lemma NoLogoutReceipt(was: Session, now: Session, i: nat)
    requires Inv(was) && Inv(now) && Intact(was) && HasNext(was) && was.asked <= now.asked
    requires OwnAnswers(now.server.tables.sent, now.me) == OwnAnswers(was.server.tables.sent, was.me)
    requires i < |Mail(now)|
    ensures !IsLogoutReceipt(now, Mail(now)[i])
  {
    hide Inv, Intact, HasNext, Earns, AskedInv, Acknowledges, FrameOf;
    if IsLogoutReceipt(now, Mail(now)[i]) {
      var f := Mail(now)[i];
      AnswerNamesDiffer();
      RepliedIn(Mail(now), f);
      RepliedIn(Mail(was), f);
      hide Replied, Inbox, Mail;
      IntactOrTorn(was);
      var j :| 0 <= j < |Mail(was)| && Mail(was)[j] == f;
      ReceiptIsEarned(was, j);
      HasAskedInv(was);
      var k :| 0 <= k < |was.fates| && was.fates[k].Whole? && Acknowledges(f, was.asked[k]);
      HasAskedInv(now);
      HasOneMore(was);
      assert now.asked[k] == was.asked[k];
      AcknowledgedIsFiled(now, f, k);
      CommandsDiffer(now.asked[k]);
      NothingAfterDisconnect(now.client, now.asked, k);
      assert false;
    }
  }

  lemma HasOneMore(s: Session)
    requires HasNext(s)
    ensures |s.fates| < |s.asked|
  {
  }

  /** When the inbox holds a RECEIPT for DISCONNECT, every request has been
      processed exactly when no SEND of a subscriber came to a channel with a
      null key and with something behind it in its chunk. */
  lemma DisconnectIsLastIff(s: Session, steps: seq<SR.Step>, login: string, passcode: string, acts: seq<Act>, i: nat)
    requires Begins(s, steps, login, passcode)
    requires var now := After(s, acts, |acts|); i < |Mail(now)| && IsLogoutReceipt(now, Mail(now)[i])
    ensures AllProcessed(After(s, acts, |acts|)) <==>
            forall k | 0 <= k < |acts| :: !StopsOverNull(After(s, acts, k), acts[k])
  {
    hide *;
    DisconnectIsLast(s, steps, login, passcode, acts, i);
    forall k | 0 <= k < |acts|
      ensures StopsOverNull(After(s, acts, k), acts[k]) ==> Loses(After(s, acts, k), acts[k])
    {
      SessionKeeps(s, steps, login, passcode, acts, k);
      StoppingLoses(After(s, acts, k), acts[k]);
    }
    if (forall k | 0 <= k < |acts| :: !StopsOverNull(After(s, acts, k), acts[k]))
       && exists k :: 0 <= k < |acts| && Loses(After(s, acts, k), acts[k]) {
      var j := FirstLoss(s, acts);
      FirstLossStops(s, steps, login, passcode, acts, i, j);
      assert false;
    }
  }

  lemma {:induction false} FirstLoss(s: Session, acts: seq<Act>) returns (j: nat)
    requires exists k :: 0 <= k < |acts| && Loses(After(s, acts, k), acts[k])
    ensures j < |acts| && Loses(After(s, acts, j), acts[j])
    ensures forall k | 0 <= k < j :: !Loses(After(s, acts, k), acts[k])
  {
    hide *;
    j := 0;
    while !Loses(After(s, acts, j), acts[j])
      invariant j < |acts| && forall k | 0 <= k < j :: !Loses(After(s, acts, k), acts[k])
      decreases |acts| - j
    {
      if j + 1 == |acts| {
        var k :| 0 <= k < |acts| && Loses(After(s, acts, k), acts[k]);
        assert false;
      }
      j := j + 1;
    }
  }

  /** The first loss is over a null key: a removed connection would have got no
      RECEIPT any more. */
  lemma FirstLossStops(s: Session, steps: seq<SR.Step>, login: string, passcode: string, acts: seq<Act>, i: nat, j: nat)
    requires Begins(s, steps, login, passcode)
    requires var now := After(s, acts, |acts|); i < |Mail(now)| && IsLogoutReceipt(now, Mail(now)[i])
    requires j < |acts| && Loses(After(s, acts, j), acts[j])
    requires forall k | 0 <= k < j :: !Loses(After(s, acts, k), acts[k])
    ensures StopsOverNull(After(s, acts, j), acts[j])
  {
    hide *;
    var was, now := After(s, acts, j), After(s, acts, |acts|);
    SessionKeeps(s, steps, login, passcode, acts, j);
    SessionKeeps(s, steps, login, passcode, acts, |acts|);
    BeginningInv(s, steps, login, passcode);
    BeginsIntact(s, steps, login, passcode);
    IntactIff(s, acts, j);
    LosesAtNext(was, acts[j]);
    StoppingLoses(was, acts[j]);
    if was.me !in was.server.tables.active {
      GoneForEver(s, acts, j, |acts|);
      NoLogoutReceipt(was, now, i);
    }
  }

  lemma LosesAtNext(s: Session, a: Act)
    requires Intact(s) && Loses(s, a)
    ensures HasNext(s) && s.cut == 0
  {
  }

  // ----- Errors -----

  lemma {:induction false} SameSender(s: Session, acts: seq<Act>, n: nat)
    requires Inv(s) && n <= |acts|
    ensures After(s, acts, n).me == s.me
  {
    hide *;
    AfterStep(s, acts, n);
    if n > 0 {
      SameSender(s, acts, n - 1);
      InvKeeps(s, acts, n - 1);
      SentGrows(After(s, acts, n - 1), acts[n - 1]);
    }
  }

  /** On every run, no ERROR is sent to this client exactly when nothing that
      arrives upsets the server. */
  lemma {:induction false} NoErrorIff(s: Session, steps: seq<SR.Step>, login: string, passcode: string,
                                      acts: seq<Act>, n: nat)
    requires Begins(s, steps, login, passcode) && n <= |acts|
    ensures !ErrorSent(After(s, acts, n).server.tables.sent, s.me) <==>
            forall k | 0 <= k < n :: !IsUpset(After(s, acts, k), acts[k])
  {
    hide *;
    AfterStep(s, acts, n);
    BeginningInv(s, steps, login, passcode);
    if n == 0 {
      BeginsWithoutError(s, steps, login, passcode);
    } else {
      NoErrorIff(s, steps, login, passcode, acts, n - 1);
      var before := After(s, acts, n - 1);
      InvKeeps(s, acts, n - 1);
      SameSender(s, acts, n - 1);
      SentGrows(before, acts[n - 1]);
      ErrorIff(before, acts[n - 1]);
      ErrorsStay(before.server.tables, After(s, acts, n).server.tables, s.me);
    }
  }

  lemma BeginsWithoutError(s: Session, steps: seq<SR.Step>, login: string, passcode: string)
    requires Begins(s, steps, login, passcode)
    ensures !ErrorSent(s.server.tables.sent, s.me)
  {
    BeginsClear(s, steps, login, passcode);
    hide Begins, ErrorSent;
  }

  // ----- When the client fails -----

  /** The receipt that the rest of torn request `k` asks for is not filed. */
  predicate TornUnfiled(s: Session, f: Frame, k: nat)
    requires |s.fates| <= |s.asked|
  {
    && k < |s.fates| && s.fates[k].Torn? && AnswersTorn(f, s.asked[k], s.fates[k].cut)
    && Printed(Header(JavaParse(WireText(s.asked[k])[s.fates[k].cut..]).value, "receipt")) !in s.client.receipts
  }

  /** The client comes to the answer to a torn request, under a receipt it has
      never used. */
  ghost predicate FindsNothing(s: Session, a: Act) {
    && a.Handle? && SessionRuns.Enabled(s, a) && |s.fates| <= |s.asked|
    && exists k :: 0 <= k < |s.fates| && TornUnfiled(s, Mail(s)[s.seen], k)
  }

  /** The client comes to a MESSAGE whose report it cannot read. */
  predicate CannotRead(s: Session, a: Act) {
    a.Handle? && SessionRuns.Enabled(s, a) && Unreadable(Mail(s)[s.seen], AnswerText(s, a.order)).Some?
  }

  lemma UnfiledIff(s: Session, i: nat)
    requires Inv(s) && i < |Mail(s)|
    ensures |s.fates| <= |s.asked|
    ensures Unfiled(s.client, Mail(s)[i]) <==> exists k :: 0 <= k < |s.fates| && TornUnfiled(s, Mail(s)[i], k)
  {
    HasAskedInv(s);
    hide Inv, Mail, AskedInv, Acknowledges, FrameOf, WireText, JavaParse;
    var f := Mail(s)[i];
    if Unfiled(s.client, f) {
      ReceiptIsEarned(s, i);
      var k :| 0 <= k < |s.fates| && Earns(f, s.asked[k], s.fates[k]);
      if s.fates[k].Whole? {
        AcknowledgedIsFiled(s, f, k);
        assert false;
      }
      assert TornUnfiled(s, f, k);
    }
  }

  lemma FailStep(s: Session, a: Act)
    requires Inv(s)
    ensures var s' := SessionRuns.Apply(s, a);
            && (s'.failed == Some(EndDereferenced) <==> s.failed == Some(EndDereferenced) || FindsNothing(s, a))
            && (s'.failed.Some? && s'.failed.value.Thrown? <==>
                  (s.failed.Some? && s.failed.value.Thrown?) || CannotRead(s, a))
  {
    hide Inv, Mail, TornUnfiled, Unfiled, Unreadable, AfterAnswer, IsOrder, JavaPrint;
    if SessionRuns.Enabled(s, a) && a.Handle? {
      NextAnswer(s, a.order);
      UnfiledIff(s, s.seen);
    } else {
      hide SR.Apply, Advanced, AfterJoin, AfterExit, AfterReport, AfterLogout;
    }
  }

  /** On every run, the client has looked behind the end of its table exactly
      when it has come to the answer to a torn request whose rest asks for a
      receipt that is not filed; and an exception has ended its reading exactly
      when it has come to a MESSAGE with a report that cannot be read. */
  lemma {:induction false} FailsIff(s: Session, steps: seq<SR.Step>, login: string, passcode: string,
                                    acts: seq<Act>, n: nat)
    requires Begins(s, steps, login, passcode) && n <= |acts|
    ensures After(s, acts, n).failed == Some(EndDereferenced) <==>
            exists k :: 0 <= k < n && FindsNothing(After(s, acts, k), acts[k])
    ensures After(s, acts, n).failed.Some? && After(s, acts, n).failed.value.Thrown? <==>
            exists k :: 0 <= k < n && CannotRead(After(s, acts, k), acts[k])
  {
    hide *;
    AfterStep(s, acts, n);
    if n == 0 {
      BeginsUnfailed(s, steps, login, passcode);
    } else {
      FailsIff(s, steps, login, passcode, acts, n - 1);
      SessionKeeps(s, steps, login, passcode, acts, n - 1);
      FailStep(After(s, acts, n - 1), acts[n - 1]);
    }
  }

  lemma BeginsUnfailed(s: Session, steps: seq<SR.Step>, login: string, passcode: string)
    requires Begins(s, steps, login, passcode)
    ensures s.failed == None
  {
  }
}
