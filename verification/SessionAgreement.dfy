/** When the two sides of a session agree on the client's subscriptions. */
module SessionAgreement {
  import opened Text
  import opened StompFrames
  import opened ConnectionTables
  import SR = ServerRuns
  import opened ServerView
  import opened BroadcastHistory
  import opened ClientSession
  import opened OneCall
  import opened OwnRequests
  import opened SessionRuns
  import opened SessionInvariant
  import opened SessionTheorems

  // ----- What requests make of subscriptions -----

  function Folded(view: map<string, int>, up: seq<Request>): map<string, int>
    decreases |up|
  {
    if up == [] then view else Folded(Track(view, up[0]), up[1..])
  }

  function Word(view: map<string, int>, ch: string): Option<int> {
    if ch in view then Some(view[ch]) else None
  }

  /** The channels these requests subscribe and unsubscribe. */
  function Names(up: seq<Request>): set<string> {
    if up == [] then {}
    else
      Names(up[1..]) + match up[0]
                       case Subscribe(channel, _, _) => {channel}
                       case Unsubscribe(channel, _, _) => {channel}
                       case _ => {}
  }

  lemma {:induction false} FoldedAppend(view: map<string, int>, a: seq<Request>, b: seq<Request>)
    ensures Folded(view, a + b) == Folded(Folded(view, a), b)
    decreases |a|
  {
    if a == [] {
      assert a + b == b;
    } else {
      FoldedAppend(Track(view, a[0]), a[1..], b);
      assert (a + b)[1..] == a[1..] + b;
    }
  }

  lemma {:induction false} ConsistentFolds(view: map<string, int>, up: seq<Request>, subscriptions: map<string, int>)
    requires Consistent(view, up, subscriptions)
    ensures Folded(view, up) == subscriptions
    decreases |up|
  {
    if up != [] {
      ConsistentFolds(Track(view, up[0]), up[1..], subscriptions);
    }
  }

  /** Requests have the last word on the channels they name, and none on others. */
  lemma {:induction false} LastWord(v: map<string, int>, w: map<string, int>, up: seq<Request>, ch: string)
    ensures ch !in Names(up) ==> Word(Folded(v, up), ch) == Word(v, ch)
    ensures ch in Names(up) || Word(v, ch) == Word(w, ch) ==> Word(Folded(v, up), ch) == Word(Folded(w, up), ch)
    decreases |up|
  {
    if up != [] {
      LastWord(Track(v, up[0]), Track(w, up[0]), up[1..], ch);
    }
  }

  lemma SameWords(v: map<string, int>, w: map<string, int>)
    ensures v == w <==> forall ch :: Word(v, ch) == Word(w, ch)
  {
    if forall ch :: Word(v, ch) == Word(w, ch) {
      assert forall ch :: ch in v <==> Word(v, ch).Some?;
      assert forall ch :: ch in w <==> Word(w, ch).Some?;
      assert forall ch | ch in v :: Word(v, ch) == Some(v[ch]) && Word(w, ch) == Some(w[ch]);
      assert v.Keys == w.Keys;
    }
  }

  /** Two views come to the same exactly when they do on all channels that the
      requests do not name. */
  lemma FoldedSame(v: map<string, int>, w: map<string, int>, up: seq<Request>)
    ensures Folded(v, up) == Folded(w, up) <==> forall ch :: ch !in Names(up) ==> Word(v, ch) == Word(w, ch)
  {
    SameWords(Folded(v, up), Folded(w, up));
    forall ch
      ensures ch !in Names(up) ==> Word(Folded(v, up), ch) == Word(v, ch) && Word(Folded(w, up), ch) == Word(w, ch)
      ensures ch in Names(up) ==> Word(Folded(v, up), ch) == Word(Folded(w, up), ch)
    {
      LastWord(v, w, up, ch);
      LastWord(w, v, up, ch);
    }
    hide Folded, Names, Word;
  }

  // ----- Agreement -----

  predicate Placed(s: Session) {
    |s.fates| <= |s.asked| && (s.cut > 0 ==> |s.fates| < |s.asked|)
  }

  /** The requests that are still under way whole. */
  function Waiting(s: Session): seq<Request>
    requires Placed(s)
  {
    s.asked[|s.fates| + (if s.cut == 0 then 0 else 1)..]
  }

  /** Carrying out what is under way would give the server's subscriptions for
      this connection just the client's. */
  predicate Agree(s: Session) {
    Placed(s) && Folded(View(s.server.tables, s.me), Waiting(s)) == s.client.subscriptions
  }

  /** Where the requests begin that the act leaves under way. */
  function Behind(s: Session, a: Act): nat
    requires Arrives(s, a)
  {
    |s.fates| + 1 + if Judged(s, a).throws then a.drop + (if a.cut > 0 then 1 else 0) else 0
  }

  /** The requests that the act drops or tears, and those it leaves. */
  function Lost(s: Session, a: Act): seq<Request>
    requires Arrives(s, a) && |s.fates| < Behind(s, a) <= |s.asked|
  {
    s.asked[|s.fates| + 1..Behind(s, a)]
  }

  function Kept(s: Session, a: Act): seq<Request>
    requires Arrives(s, a) && Behind(s, a) <= |s.asked|
  {
    s.asked[Behind(s, a)..]
  }

  /** What the client counts on after the next text: a torn request is not to
      change anything. */
  function Due(s: Session): map<string, int>
    requires HasNext(s)
  {
    var view := View(s.server.tables, s.me);
    if s.cut == 0 then Track(view, Next(s)) else view
  }

  /** On some channel, and no request that stays under way names it, the call
      leaves the server with something else than the client counts on, what is
      lost included. */
  ghost predicate Parts(s: Session, a: Act) {
    && Arrives(s, a) && |s.fates| < Behind(s, a) <= |s.asked|
    && exists ch :: ch !in Names(Kept(s, a)) && Word(Judged(s, a).view, ch) != Word(Folded(Due(s), Lost(s, a)), ch)
  }

  lemma BehindIsIn(s: Session, a: Act)
    requires Inv(s) && Arrives(s, a)
    ensures |s.fates| < Behind(s, a) <= |s.asked|
  {
    hide Inv, Judged, NextText, WireText;
  }

  lemma {:induction false} LinkSplits(view: map<string, int>, asked: seq<Request>, n: nat, whole: bool, m: nat)
    requires n < m <= |asked|
    ensures Folded(view, asked[n + (if whole then 0 else 1)..]) ==
            Folded(Folded(if whole then Track(view, asked[n]) else view, asked[n + 1..m]), asked[m..])
  {
    var base := if whole then Track(view, asked[n]) else view;
    FoldedAppend(base, asked[n + 1..m], asked[m..]);
    assert asked[n + 1..] == asked[n + 1..m] + asked[m..];
    if whole {
      assert asked[n..][0] == asked[n] && asked[n..][1..] == asked[n + 1..];
    }
    hide Track;
  }

  lemma ArrivesIs(s: Session, a: Act)
    requires Arrives(s, a)
    ensures a.Arrive? && SessionRuns.Enabled(s, a) && HasNext(s) && MayEndAt(s.asked, |s.fates| + 1, a.drop, a.cut)
  {
    hide WireText;
  }

  /** An arrival: what is agreed before, in terms of what stays behind. */
  lemma ArrivalSplits(s: Session, a: Act)
    requires Arrives(s, a) && |s.fates| < Behind(s, a) <= |s.asked|
    ensures HasNext(s) && Placed(s)
    ensures Folded(View(s.server.tables, s.me), Waiting(s)) == Folded(Folded(Due(s), Lost(s, a)), Kept(s, a))
  {
    hide Arrives, Behind, Judged, View, WireText, Track, Folded, SessionRuns.Enabled;
    ArrivesIs(s, a);
    LinkSplits(View(s.server.tables, s.me), s.asked, |s.fates|, s.cut == 0, Behind(s, a));
  }

  lemma AdvancedWaits(s: Session, thrown: bool, drop: nat, cut: nat)
    requires HasNext(s) && MayEndAt(s.asked, |s.fates| + 1, drop, cut)
    ensures var s' := Advanced(s, thrown, drop, cut);
            var m := |s.fates| + 1 + if thrown then drop + (if cut > 0 then 1 else 0) else 0;
            && |s.fates| < m <= |s.asked| && s' == s.(fates := s'.fates, cut := s'.cut)
            && Placed(s') && Waiting(s') == s.asked[m..]
  {
    DroppedOnly(drop);
    hide WireText;
  }

  lemma ArrivalLeaves(s: Session, a: Act)
    requires Inv(s) && Arrives(s, a)
    ensures |s.fates| < Behind(s, a) <= |s.asked|
    ensures var s' := SessionRuns.Apply(s, a);
            && s'.client == s.client && s'.me == s.me && Placed(s')
            && View(s'.server.tables, s.me) == Judged(s, a).view
            && Waiting(s') == Kept(s, a)
  {
    hide Inv, Judged, View, NextText, WireText, SessionRuns.Apply, SR.Apply, SessionRuns.Called, OwnAnswers,
         ErrorSince, HasError, Advanced, SessionRuns.Enabled, Arrives, HasNext, MayEndAt;
    ArrivesIs(s, a);
    ArriveIs(s, a);
    ArriveGives(s, a);
    AdvancedWaits(s, SessionRuns.Called(s, a).thrown.Some?, a.drop, a.cut);
    SameWaiting(SessionRuns.Apply(s, a), Advanced(s, SessionRuns.Called(s, a).thrown.Some?, a.drop, a.cut));
  }

  lemma SameWaiting(s: Session, s': Session)
    requires s.asked == s'.asked && s.fates == s'.fates && s.cut == s'.cut && Placed(s')
    ensures Placed(s) && Waiting(s) == Waiting(s')
  {
  }

  /** From a state of agreement, an arrival leads out exactly when it parts the
      two sides. */
  lemma ArrivalAgrees(s: Session, a: Act)
    requires Inv(s) && Agree(s) && Arrives(s, a)
    ensures Agree(SessionRuns.Apply(s, a)) <==> !Parts(s, a)
  {
    hide *;
    ArrivesIs(s, a);
    ArrivalLeaves(s, a);
    ArrivalSplits(s, a);
    FoldedSame(Judged(s, a).view, Folded(Due(s), Lost(s, a)), Kept(s, a));
    AgreeIs(s);
    AgreeIs(SessionRuns.Apply(s, a));
    PartsIs(s, a);
  }

  lemma AgreeIs(s: Session)
    requires Placed(s)
    ensures Agree(s) <==> Folded(View(s.server.tables, s.me), Waiting(s)) == s.client.subscriptions
  {
  }

  lemma PartsIs(s: Session, a: Act)
    requires Arrives(s, a) && |s.fates| < Behind(s, a) <= |s.asked|
    ensures Parts(s, a) <==> !forall ch :: ch !in Names(Kept(s, a)) ==>
                                Word(Judged(s, a).view, ch) == Word(Folded(Due(s), Lost(s, a)), ch)
  {
    hide Names, Kept, Judged, Word, Folded, Due, Lost, Arrives, Behind;
  }

  // ----- Other acts -----

  lemma CommandAgrees(s: Session, c: Client, more: seq<Request>)
    requires Agree(s) && GoodCommand(s.client, c, more)
    ensures Agree(Asking(s, c, more))
  {
    ConsistentFolds(s.client.subscriptions, more, c.subscriptions);
    FoldedAppend(View(s.server.tables, s.me), Waiting(s), more);
    assert Waiting(Asking(s, c, more)) == Waiting(s) + more;
    hide GoodCommand, View, Folded;
  }

  lemma ElsewhereAgrees(s: Session, step: SR.Step)
    requires Inv(s) && Agree(s) && SessionRuns.Enabled(s, Elsewhere(step))
    ensures Agree(s.(server := SR.Apply(s.server, step)))
  {
    ElsewhereIsAloof(s, step);
    hide SR.Apply, View, Inv, Folded, Earned, ServerInv;
  }

  /** Whatever else happens, the two sides go on agreeing. */
  lemma OthersAgree(s: Session, a: Act)
    requires Inv(s) && Agree(s) && !Arrives(s, a)
    ensures Agree(SessionRuns.Apply(s, a))
  {
    hide Inv, Folded, View, GoodCommand, ClientInv;
    if SessionRuns.Enabled(s, a) {
      ClientIsGood(s);
      match a
      case Elsewhere(step) => ElsewhereAgrees(s, step);
      case Arrive(_, _, _) => assert false;
      case Join(channel, taken) =>
        JoinIsGood(s.client, channel, taken);
        CommandAgrees(s, AfterJoin(s.client, channel, taken).0, AfterJoin(s.client, channel, taken).1);
      case Exit(channel, taken) =>
        ExitIsGood(s.client, channel, taken);
        CommandAgrees(s, AfterExit(s.client, channel, taken).0, AfterExit(s.client, channel, taken).1);
      case Report(user, channel, events, sends) =>
        ReportIsCommand(s.client, user, channel, events, sends);
        CommandAgrees(s, s.client, AfterReport(s.client, user, channel, events, sends));
      case Logout(taken) =>
        LogoutIsGood(s.client, taken);
        CommandAgrees(s, AfterLogout(s.client, taken).0, AfterLogout(s.client, taken).1);
      case Handle(order) => AnswersAgree(s, order);
      case Hangup =>
    }
  }

  lemma AnswersAgree(s: Session, order: seq<string>)
    requires Agree(s) && SessionRuns.Enabled(s, Handle(order))
    ensures Agree(SessionRuns.Handled(s, order))
  {
    var answer := AnswerText(s, order);
    if AfterAnswer(s.client, answer).Ok? {
      var keyboard, responses := AnswerEndsAtMost(s.client, answer);
    }
    hide AfterAnswer, View, Folded, JavaPrint;
  }

  // ----- Every run -----

  /** From a state of agreement, agreement ends exactly at an arrival that parts
      the two sides. */
  lemma AgreementStep(s: Session, a: Act)
    requires Inv(s) && Agree(s)
    ensures Agree(SessionRuns.Apply(s, a)) <==> !Parts(s, a)
  {
    hide *;
    if Arrives(s, a) {
      ArrivalAgrees(s, a);
    } else {
      OthersAgree(s, a);
      OnlyArrivalsPart(s, a);
    }
  }

  lemma OnlyArrivalsPart(s: Session, a: Act)
    ensures Parts(s, a) ==> Arrives(s, a)
  {
  }

  /** On every run, the two sides have agreed in every state so far exactly when
      no arrival has parted them. */
  lemma {:induction false} AgreementIff(s: Session, steps: seq<SR.Step>, login: string, passcode: string,
                                        acts: seq<Act>, n: nat)
    requires Begins(s, steps, login, passcode) && n <= |acts|
    ensures (forall k | 0 <= k <= n :: Agree(After(s, acts, k))) <==>
            (forall k | 0 <= k < n :: !Parts(After(s, acts, k), acts[k]))
  {
    hide *;
    AfterStep(s, acts, n);
    if n == 0 {
      BeginsAgreed(s, steps, login, passcode);
    } else {
      AgreementIff(s, steps, login, passcode, acts, n - 1);
      SessionKeeps(s, steps, login, passcode, acts, n - 1);
      if Agree(After(s, acts, n - 1)) {
        AgreementStep(After(s, acts, n - 1), acts[n - 1]);
      }
    }
  }

  lemma ClearAgrees(s: Session)
    requires Inv(s) && Clear(s)
    ensures Agree(s)
  {
    ConsistentFolds(View(s.server.tables, s.me), s.asked[|s.fates|..], s.client.subscriptions);
    hide View, Folded, AskedInv, ClientInv, ServerInv, Earned, Answered, Consistent;
  }

  lemma BeginsAgreed(s: Session, steps: seq<SR.Step>, login: string, passcode: string)
    requires Begins(s, steps, login, passcode)
    ensures Agree(s)
  {
    hide *;
    BeginningInv(s, steps, login, passcode);
    BeginsClear(s, steps, login, passcode);
    ClearAgrees(s);
  }

  // ----- What parts them, in a clear state -----

  /** An UNSUBSCRIBE above 127 whose channel no later request names. */
  predicate StaysSubscribed(s: Session, a: Act) {
    && Arrives(s, a) && |s.fates| < Behind(s, a) <= |s.asked|
    && Next(s).Unsubscribe? && Next(s).id > 127 && Next(s).channel !in Names(Kept(s, a))
  }

  /** A SEND over a null key, behind which requests are lost that would have
      changed a channel no later request names. */
  ghost predicate LosesWord(s: Session, a: Act) {
    && Arrives(s, a) && |s.fates| < Behind(s, a) <= |s.asked|
    && Next(s).Send? && HasNull(s.server.tables, Next(s).channel)
    && var view := View(s.server.tables, s.me);
       exists ch :: ch !in Names(Kept(s, a)) && Word(view, ch) != Word(Folded(view, Lost(s, a)), ch)
  }

  lemma ClearIsJudged(s: Session, a: Act)
    requires Inv(s) && Clear(s) && Arrives(s, a)
    ensures var t, r, v := s.server.tables, Next(s), Judged(s, a);
            && s.cut == 0 && Fits(View(t, s.me), r)
            && v.view == (if Refused(t, r) then View(t, s.me) else Track(View(t, s.me), r))
            && (v.throws <==> Throws(t, r, a.orders))
  {
    ClearIsThere(s);
    ArriveAgrees(s, a);
    WholeIsJudged(s, a);
    FittingIsUpset(s.server.tables, s.me, Next(s), a.orders);
    hide Inv, Judged, View, Upset, Moved, Track, Throws, Refused, Fits, Sane, HasError, Served, TurnedDown,
         SessionRuns.Called, SR.Apply, SessionRuns.Enabled, ErrorSent, Sound;
  }

  lemma RefusedIs(t: Tables, r: Request)
    ensures r.Unsubscribe? ==> (Refused(t, r) <==> r.id > 127)
    ensures Refused(t, r) ==> r.Unsubscribe? || r.Connect?
  {
  }

  lemma FitsIs(view: map<string, int>, r: Request)
    requires Fits(view, r) && r.Unsubscribe?
    ensures r.channel in view
  {
  }

  /** In a clear state the two sides part exactly over such a request. */
  lemma ClearPartsIff(s: Session, a: Act)
    requires Inv(s) && Clear(s)
    ensures Parts(s, a) <==> StaysSubscribed(s, a) || LosesWord(s, a)
  {
    hide Inv, Clear, View, Judged, Names, SessionRuns.Enabled, HasNull, NextText, Arrives, WireText, Refused, Fits;
    if Arrives(s, a) {
      ArrivesIs(s, a);
      BehindIsIn(s, a);
      ClearIsJudged(s, a);
      RefusedIs(s.server.tables, Next(s));
      if Next(s).Disconnect? {
        NothingBehindDisconnect(s, a);
      }
      var view, r := View(s.server.tables, s.me), Next(s);
      if r.Send? {
        assert HasNull(s.server.tables, r.channel) <==> Judged(s, a).throws;
        assert Lost(s, a) == [] ==> Folded(view, Lost(s, a)) == view;
        assert !Judged(s, a).throws ==> Lost(s, a) == [];
      } else {
        assert Lost(s, a) == [];
        assert Folded(Due(s), Lost(s, a)) == Track(view, r);
        if r.Unsubscribe? && r.id > 127 {
          FitsIs(view, r);
          assert Word(view, r.channel) != Word(view - {r.channel}, r.channel);
        }
      }
    }
  }
}
