/** The invariant of a session: every act keeps it. */
module SessionInvariant {
  import opened Text
  import opened Splitter
  import opened StompFrames
  import opened RoundTrips
  import opened Reports
  import opened ConnectionTables
  import opened ServerProtocol
  import SR = ServerRuns
  import opened SentFrames
  import opened ServerView
  import opened ClientSession
  import opened OneCall
  import opened OwnRequests
  import opened SessionRuns

  // ----- Commands -----

  lemma CommandKeepsAsked(c: Client, c': Client, asked: seq<Request>, more: seq<Request>)
    requires AskedInv(c, asked) && GoodCommand(c, c', more) && !c.terminateKeyboard
    ensures AskedInv(c', asked + more)
  {
    var all := asked + more;
    forall i | 0 <= i < |all|
      ensures Filed(c', all[i])
    {
      if i < |asked| {
        assert Filed(c, asked[i]);
      }
    }
    forall i, j | 0 <= i < j < |all|
      ensures Later(all[i], all[j])
    {
      if j < |asked| {
        assert Later(asked[i], asked[j]);
      } else if i < |asked| {
        assert Filed(c, asked[i]) && Filed(c', more[j - |asked|]);
      }
    }
  }

  lemma NextStays(s: Session, s': Session)
    requires HasNext(s) && s'.fates == s.fates && s'.cut == s.cut && s.asked <= s'.asked
    ensures HasNext(s')
  {
    hide WireText;
  }

  lemma CommandKeeps(s: Session, c: Client, more: seq<Request>)
    requires Inv(s) && GoodCommand(s.client, c, more) && !s.client.terminateKeyboard
    ensures Inv(Asking(s, c, more))
  {
    hide AskedInv, Earned, SR.Inv, AllPrintable, HasTorn, HasNext, Filed, Agreed, Inbox, RepliesTo, ErrorSent,
         Consistent, ClientInv;
    CommandKeepsAsked(s.client, c, s.asked, more);
    EarnedByMore(s.server.tables.sent, s.me, s.asked, s.fates, more);
    RepliesToMore(s.asked, s.fates, more);
    ConsistentAppend(map[], s.asked, s.client.subscriptions, more, c.subscriptions);
    var s' := Asking(s, c, more);
    assert Clear(s') <==> Clear(s);
    if s.cut > 0 {
      NextStays(s, s');
    }
    hide Clear;
    if Clear(s') {
      CommandAgrees(s, c, more);
    }
  }

  lemma {:induction false} RepliesToMore(asked: seq<Request>, fates: seq<Fate>, more: seq<Request>)
    requires |fates| <= |asked|
    ensures RepliesTo(asked + more, fates) == RepliesTo(asked, fates)
  {
    if fates != [] {
      RepliesToMore(asked, fates[..|fates| - 1], more);
    }
  }

  lemma LinkGrows(asked: seq<Request>, n: nat, more: seq<Request>)
    requires n <= |asked|
    ensures (asked + more)[..n] == asked[..n] && (asked + more)[n..] == asked[n..] + more
  {
  }

  lemma CommandAgrees(s: Session, c: Client, more: seq<Request>)
    requires |s.fates| <= |s.asked| && Agreed(s) && Consistent(s.client.subscriptions, more, c.subscriptions)
    ensures Agreed(Asking(s, c, more))
  {
    hide View, Consistent, Sane;
    var n := |s.fates|;
    LinkGrows(s.asked, n, more);
    ConsistentAppend(View(s.server.tables, s.me), s.asked[n..], s.client.subscriptions, more, c.subscriptions);
  }

  lemma ReportKeeps(s: Session, user: string, channel: string, events: seq<Event>, sends: seq<bool>)
    requires Inv(s) && SessionRuns.Enabled(s, Report(user, channel, events, sends))
    ensures Inv(SessionRuns.Apply(s, Report(user, channel, events, sends)))
  {
    hide GoodCommand, AfterReport, WireText, CppParse, SR.Apply, AfterAnswer, Inv, ClientInv, AfterJoin, AfterExit,
         AfterLogout;
    ClientIsGood(s);
    var more := AfterReport(s.client, user, channel, events, sends);
    ReportIsCommand(s.client, user, channel, events, sends);
    CommandKeeps(s, s.client, more);
  }

  lemma ReportIsCommand(c: Client, user: string, channel: string, events: seq<Event>, sends: seq<bool>)
    requires ClientInv(c) && |sends| == |events| && Carried(user, events)
    ensures GoodCommand(c, c, AfterReport(c, user, channel, events, sends))
  {
    if channel in c.subscriptions {
      ReportIsGood(c, user, channel, events, sends);
    } else {
      assert Consistent(c.subscriptions, [], c.subscriptions);
    }
    hide ReportsOf, ClientInv, Carried, Consistent;
  }

  // ----- Steps of the server -----

  lemma ErrorsStay(t: Tables, t': Tables, me: int)
    requires t.sent <= t'.sent
    ensures ErrorSent(t'.sent, me) <==> ErrorSent(t.sent, me) || ErrorSince(t, t', me)
  {
    if ErrorSent(t.sent, me) {
      var i :| 0 <= i < |t.sent| && t.sent[i].to == me && t.sent[i].frame.command == "ERROR";
      assert t'.sent[i] == t.sent[i];
    }
    if ErrorSent(t'.sent, me) {
      var i :| 0 <= i < |t'.sent| && t'.sent[i].to == me && t'.sent[i].frame.command == "ERROR";
      if i < |t.sent| {
        assert t.sent[i] == t'.sent[i];
      } else {
        assert ErrorSince(t, t', me);
      }
    }
  }

  lemma ElsewhereStaysAgreed(s: Session, s': Session)
    requires Inv(s) && s' == s.(server := s'.server) && Aloof(s.server.tables, s'.server.tables, s.me) && Clear(s')
    ensures Clear(s) && Agreed(s')
  {
    var t, t' := s.server.tables, s'.server.tables;
    ErrorsStay(t, t', s.me);
    hide Earned, AskedInv, ClientInv, ServerInv, View, Answered;
  }

  lemma ElsewhereAnswers(s: Session, s': Session)
    requires Inv(s) && s' == s.(server := s'.server) && Aloof(s.server.tables, s'.server.tables, s.me)
    ensures Answered(s')
  {
    var t, t' := s.server.tables, s'.server.tables;
    NoNewAnswers(t.sent, t'.sent, s.me);
    ErrorsStay(t, t', s.me);
    hide Earned, AskedInv, ClientInv, ServerInv, OwnAnswers, View, Clear, Agreed, HasTorn, ErrorSent;
  }

  lemma ElsewhereIsAloof(s: Session, step: SR.Step)
    requires Inv(s) && SessionRuns.Enabled(s, Elsewhere(step))
    ensures var s' := s.(server := SR.Apply(s.server, step));
            && ServerInv(s')
            && Aloof(s.server.tables, s'.server.tables, s.me)
            && Earned(s'.server.tables.sent, s.me, s.asked, s.fates)
  {
    var t, t' := s.server.tables, SR.Apply(s.server, step).tables;
    SR.StepKeeps(s.server, step);
    StepPrintable(s.server, step);
    CounterGrows(s.server, step);
    OthersAreAloof(s.server, step, s.me);
    hide SR.Apply, SR.Enabled, View, Earned;
    EarnedStays(t.sent, t'.sent, s.me, s.asked, s.fates);
  }

  lemma ElsewhereKeeps(s: Session, step: SR.Step)
    requires Inv(s) && SessionRuns.Enabled(s, Elsewhere(step))
    ensures Inv(SessionRuns.Apply(s, Elsewhere(step)))
  {
    ElsewhereIsAloof(s, step);
    var s' := SessionRuns.Apply(s, Elsewhere(step));
    assert |s.fates| <= |s.asked| && (s.cut > 0 ==> HasNext(s'));
    hide SR.Apply, SR.Enabled, Inv, Earned, ServerInv, Clear, Agreed, Answered, HasTorn, HasNext;
    ElsewhereAnswers(s, s');
    if Clear(s') {
      ElsewhereStaysAgreed(s, s');
    }
    AdvanceKeeps(s, s');
  }

  lemma EarnedByMore(sent: seq<Delivery>, me: int, asked: seq<Request>, fates: seq<Fate>, more: seq<Request>)
    requires |fates| <= |asked| && Earned(sent, me, asked, fates)
    ensures Earned(sent, me, asked + more, fates)
  {
    hide Earns;
    forall i | 0 <= i < |sent| && sent[i].to == me && sent[i].frame.command == "RECEIPT"
      ensures exists k :: 0 <= k < |fates| && Earns(sent[i].frame, (asked + more)[k], fates[k])
    {
      var k :| 0 <= k < |fates| && Earns(sent[i].frame, asked[k], fates[k]);
      assert (asked + more)[k] == asked[k];
    }
  }

  lemma EarnedStays(sent: seq<Delivery>, more: seq<Delivery>, me: int, asked: seq<Request>, fates: seq<Fate>)
    requires |fates| <= |asked| && Earned(sent, me, asked, fates) && sent <= more
    requires forall i | |sent| <= i < |more| && more[i].to == me :: more[i].frame.command == "MESSAGE"
    ensures Earned(more, me, asked, fates)
  {
    AnswerNamesDiffer();
    hide Earns;
    forall i | 0 <= i < |more| && more[i].to == me && more[i].frame.command == "RECEIPT"
      ensures exists k :: 0 <= k < |fates| && Earns(more[i].frame, asked[k], fates[k])
    {
      assert i < |sent| && more[i] == sent[i];
    }
  }

  // ----- Requests arrive -----

  /** A RECEIPT that answers the frame at the head of the link is earned by the
      request the frame comes from. */
  lemma AnswerEarns(r: Request, cut: nat, f: Frame)
    requires Sendable(r) && cut <= |WireText(r)| && JavaParse(WireText(r)[cut..]).Ok?
    requires Answers(JavaParse(WireText(r)[cut..]).value, f) && f.command == "RECEIPT"
    ensures Earns(f, r, FateOf(cut))
  {
    AnswerNamesDiffer();
    var c, p := "CONNECTED", "RECEIPT";
    assert |c| != |p|;
    if cut == 0 {
      assert WireText(r)[cut..] == WireText(r);
      RequestArrives(r);
      CommandsDiffer(r);
    }
  }

  /** The fates after the next one are those of dropped requests. */
  lemma {:induction false} DroppedOnly(n: nat)
    ensures |Dropping(n)| == n && forall k | 0 <= k < n :: Dropping(n)[k] == Skipped
  {
    if n > 0 {
      DroppedOnly(n - 1);
    }
  }

  lemma ArrivalIsEarned(sent: seq<Delivery>, more: seq<Delivery>, me: int, asked: seq<Request>, fates: seq<Fate>,
                        cut: nat, later: seq<Fate>)
    requires |fates| < |asked| && |fates| + 1 + |later| <= |asked|
    requires Earned(sent, me, asked, fates) && sent <= more
    requires forall i | |sent| <= i < |more| && more[i].frame.command == "RECEIPT" ::
               Earns(more[i].frame, asked[|fates|], FateOf(cut))
    ensures Earned(more, me, asked, fates + [FateOf(cut)] + later)
  {
    hide Earns;
    var all := fates + [FateOf(cut)] + later;
    forall i | 0 <= i < |more| && more[i].to == me && more[i].frame.command == "RECEIPT"
      ensures exists k :: 0 <= k < |all| && Earns(more[i].frame, asked[k], all[k])
    {
      if i < |sent| {
        assert more[i] == sent[i];
        var k :| 0 <= k < |fates| && Earns(sent[i].frame, asked[k], fates[k]);
        assert all[k] == fates[k];
      } else {
        assert all[|fates|] == FateOf(cut);
      }
    }
  }

  /** What the server sends while it processes the next frame. */
  lemma NextSends(s: Session, a: Act)
    requires Inv(s) && a.Arrive? && SessionRuns.Enabled(s, a)
    ensures var sent, more := s.server.tables.sent, SR.Apply(s.server, NextStep(s, a.orders)).tables.sent;
            && sent <= more
            && forall i | |sent| <= i < |more| && more[i].frame.command == "RECEIPT" ::
                 Earns(more[i].frame, s.asked[|s.fates|], FateOf(s.cut))
  {
    var r := s.asked[|s.fates|];
    var text := WireText(r)[s.cut..];
    assert Filed(s.client, r);
    hide ServerProtocol.Processed, Earns, WireText, Filed;
    ProcessSends(s.server.tables, s.server.protos[s.me].(connectionID := s.me), text, a.orders);
    var sent, more := s.server.tables.sent, SR.Apply(s.server, NextStep(s, a.orders)).tables.sent;
    forall i | |sent| <= i < |more| && more[i].frame.command == "RECEIPT"
      ensures Earns(more[i].frame, r, FateOf(s.cut))
    {
      AnswerEarns(r, s.cut, more[i].frame);
    }
  }

  lemma ArriveEarns(s: Session, a: Act)
    requires Inv(s) && a.Arrive? && SessionRuns.Enabled(s, a)
    ensures var s' := SessionRuns.Apply(s, a);
            && s.server.tables.sent <= s'.server.tables.sent
            && |s'.fates| <= |s.asked|
            && ServerInv(s')
            && Earned(s'.server.tables.sent, s.me, s.asked, s'.fates)
  {
    var step := NextStep(s, a.orders);
    NextSends(s, a);
    SR.StepKeeps(s.server, step);
    StepPrintable(s.server, step);
    CounterGrows(s.server, step);
    DroppedOnly(a.drop);
    var later := if SessionRuns.Called(s, a).thrown.Some? then Dropping(a.drop) else [];
    ArrivalIsEarned(s.server.tables.sent, SR.Apply(s.server, step).tables.sent, s.me, s.asked, s.fates, s.cut, later);
    assert s.fates + [FateOf(s.cut)] + [] == s.fates + [FateOf(s.cut)];
    hide SR.Apply, SR.Called, Earned, Earns, ServerProtocol.Processed;
  }

  /** The call does what its verdict says. */
  lemma ArriveGives(s: Session, a: Act)
    requires Inv(s) && a.Arrive? && SessionRuns.Enabled(s, a)
    ensures var e := SessionRuns.Called(s, a);
            && Gives(s.server.tables, e, s.me, Judged(s, a))
            && SR.Apply(s.server, NextStep(s, a.orders)).tables == e.tables
            && (ErrorSince(s.server.tables, e.tables, s.me) <==> HasError(Judged(s, a).answers))
  {
    CallGives(s.server, s.me, NextText(s), a.orders);
    hide Gives, SR.Called, NextText, TextVerdict;
    GivesError(s.server.tables, SessionRuns.Called(s, a), s.me, Judged(s, a));
  }

  /** A whole request is judged by what it asks for. */
  lemma WholeIsJudged(s: Session, a: Act)
    requires Inv(s) && a.Arrive? && SessionRuns.Enabled(s, a) && s.cut == 0
    ensures var t, r, v := s.server.tables, s.asked[|s.fates|], Judged(s, a);
            if s.me in t.active then
              && v.view == Moved(t, s.me, r, a.orders)
              && (HasError(v.answers) <==> Upset(t, s.me, r))
              && (!Upset(t, s.me, r) ==> v.answers == Reply(r))
              && (v.throws <==> !Upset(t, s.me, r) && Throws(t, r, a.orders))
            else v == Verdict(View(t, s.me), [], true)
  {
    var r := s.asked[|s.fates|];
    assert WireText(r)[0..] == WireText(r);
    assert Filed(s.client, r);
    hide WireText, TextVerdict, Upset, Moved, Throws, View, HasError;
    RequestVerdict(s.server.tables, s.me, r, a.orders);
  }

  /** In a clear state the next request fits, is refused or served, and the
      call throws, under conditions that are known before it. */
  lemma ArriveAgrees(s: Session, a: Act)
    requires Inv(s) && a.Arrive? && SessionRuns.Enabled(s, a) && Clear(s)
    ensures var t, t', r := s.server.tables, SR.Apply(s.server, NextStep(s, a.orders)).tables, s.asked[|s.fates|];
            && Fits(View(t, s.me), r)
            && (if Refused(t, r) then TurnedDown(t, t', s.me) else Served(t, t', s.me, r))
            && (SessionRuns.Called(s, a).thrown.Some? <==> Throws(t, r, a.orders))
  {
    ClearIsThere(s);
    var r := s.asked[|s.fates|];
    assert s.asked[|s.fates|..][0] == r;
    assert WireText(r)[0..] == WireText(r);
    assert Filed(s.client, r);
    hide ServerProtocol.Processed, JavaParse, WireText, Served, TurnedDown, Refused, Answered;
    RequestIsServed(s.server, s.me, r, a.orders);
  }

  lemma ClearIsThere(s: Session)
    requires Inv(s) && Clear(s)
    ensures s.me in s.server.tables.active && Agreed(s) && !HasTorn(s.fates)
    ensures OwnAnswers(s.server.tables.sent, s.me) == RepliesTo(s.asked, s.fates)
  {
    hide Agreed, Earned, AskedInv, ClientInv, ServerInv;
  }

  lemma ConsistentNext(view: map<string, int>, asked: seq<Request>, n: nat, subscriptions: map<string, int>)
    requires n < |asked| && Consistent(view, asked[n..], subscriptions)
    ensures Consistent(Track(view, asked[n]), asked[n + 1..], subscriptions)
  {
    var up := asked[n..];
    assert up[0] == asked[n] && up[1..] == asked[n + 1..];
  }

  /** SENDs can be left out. */
  lemma {:induction false} SkipSends(view: map<string, int>, asked: seq<Request>, n: nat, d: nat,
                                     subscriptions: map<string, int>)
    requires n + d <= |asked| && AllSends(asked, n, d) && Consistent(view, asked[n..], subscriptions)
    ensures Consistent(view, asked[n + d..], subscriptions)
    decreases d
  {
    if d > 0 {
      ConsistentNext(view, asked, n, subscriptions);
      assert asked[n].Send?;
      SkipSends(view, asked, n + 1, d - 1, subscriptions);
    }
  }

  lemma ServedStaysAgreed(s: Session, s': Session, d: nat)
    requires |s.fates| < |s.asked| && Agreed(s) && Fits(View(s.server.tables, s.me), s.asked[|s.fates|])
    requires Served(s.server.tables, s'.server.tables, s.me, s.asked[|s.fates|])
    requires s'.asked == s.asked && |s'.fates| == |s.fates| + 1 + d <= |s.asked| && s'.me == s.me
             && s'.client == s.client
    requires AllSends(s.asked, |s.fates| + 1, d)
    ensures Agreed(s')
  {
    hide View, Sane, Fits, Track, OwnAnswers, Consistent, Reply, ErrorSince, AllSends;
    var n, view := |s.fates|, View(s.server.tables, s.me);
    TrackIsSane(view, s.asked[n]);
    ConsistentNext(view, s.asked, n, s.client.subscriptions);
    SkipSends(Track(view, s.asked[n]), s.asked, n + 1, d, s.client.subscriptions);
  }

  /** The replies with one more request processed, and some skipped. */
  lemma {:induction false} RepliesToNext(asked: seq<Request>, fates: seq<Fate>, d: nat)
    requires |fates| + 1 + d <= |asked|
    ensures |fates + [Whole] + Dropping(d)| <= |asked|
    ensures RepliesTo(asked, fates + [Whole] + Dropping(d)) == RepliesTo(asked, fates) + Reply(asked[|fates|])
    decreases d
  {
    var all := fates + [Whole] + Dropping(d);
    DroppedOnly(d);
    if d == 0 {
      assert all == fates + [Whole] && all[..|fates|] == fates;
    } else {
      RepliesToNext(asked, fates, d - 1);
      assert all == (fates + [Whole] + Dropping(d - 1)) + [Skipped];
      assert all[..|all| - 1] == fates + [Whole] + Dropping(d - 1);
    }
  }

  /** Taking the next frame leaves the link intact exactly when it was so and
      the call has not dropped anything. */
  lemma AdvancedIntact(s: Session, thrown: bool, drop: nat, cut: nat)
    ensures Intact(Advanced(s, thrown, drop, cut)) <==> Intact(s) && (thrown ==> drop == 0 && cut == 0)
    ensures Intact(Advanced(s, thrown, drop, cut)) ==> Advanced(s, thrown, drop, cut).fates == s.fates + [Whole]
    ensures HasTorn(s.fates) ==> HasTorn(Advanced(s, thrown, drop, cut).fates)
  {
    DroppedOnly(drop);
    var s' := Advanced(s, thrown, drop, cut);
    var n := |s.fates|;
    assert s'.fates[n] == FateOf(s.cut) && forall k | 0 <= k < n :: s'.fates[k] == s.fates[k];
    if thrown && drop > 0 {
      assert s'.fates[n + 1] == Dropping(drop)[0];
    } else {
      assert Dropping(0) == [] && s.fates + [FateOf(s.cut)] + [] == s.fates + [FateOf(s.cut)];
    }
  }

  /** The same for soundness, which bears the loss of SENDs. */
  lemma AdvancedSound(s: Session, thrown: bool, drop: nat, cut: nat)
    requires |s.fates| < |s.asked|
    ensures Sound(Advanced(s, thrown, drop, cut)) <==>
            Sound(s) && (thrown ==> cut == 0 && AllSends(s.asked, |s.fates| + 1, drop))
  {
    DroppedOnly(drop);
    var s', n := Advanced(s, thrown, drop, cut), |s.fates|;
    assert s'.fates[n] == FateOf(s.cut) && forall k | 0 <= k < n :: s'.fates[k] == s.fates[k];
    if thrown {
      assert forall k | n + 1 <= k < n + 1 + drop :: s'.fates[k] == Skipped;
      if Sound(s') {
        assert drop > 0 ==> s'.fates[n + drop] == Skipped;
        forall k | n + 1 <= k < n + 1 + drop
          ensures s.asked[k].Send?
        {
          assert s'.fates[k] == Skipped;
        }
      } else if Sound(s) && cut == 0 && AllSends(s.asked, n + 1, drop) {
        forall k | 0 <= k < |s'.fates|
          ensures s'.fates[k].Whole? || (s'.fates[k].Skipped? && k < |s.asked| && s.asked[k].Send?)
        {
          if k < n {
            assert s'.fates[k] == s.fates[k];
          } else if k > n {
            assert k < n + 1 + drop && s.asked[k].Send?;
          }
        }
      }
    }
  }

  lemma ArriveStaysAgreed(s: Session, a: Act)
    requires Inv(s) && a.Arrive? && SessionRuns.Enabled(s, a) && Clear(SessionRuns.Apply(s, a))
    ensures |SessionRuns.Apply(s, a).fates| <= |s.asked|
    ensures Agreed(SessionRuns.Apply(s, a))
  {
    hide Agreed, Served, Fits, Refused, Sound, SR.Apply, Inv, Earned, ErrorSent, WireText, AskedInv;
    ArriveEarns(s, a);
    ArriveIs(s, a);
    var s', thrown := SessionRuns.Apply(s, a), SessionRuns.Called(s, a).thrown.Some?;
    AdvancedSound(s, thrown, a.drop, a.cut);
    SameSound(s', Advanced(s, thrown, a.drop, a.cut));
    ErrorsStay(s.server.tables, s'.server.tables, s.me);
    ClearIsThere(s);
    ArriveAgrees(s, a);
    DroppedOnly(a.drop);
    hide SessionRuns.Apply, SessionRuns.Called, SessionRuns.Enabled, ErrorSince;
    ServedStaysAgreed(s, s', if thrown then a.drop else 0);
  }

  lemma SameSound(s: Session, s': Session)
    requires s.fates == s'.fates && s.cut == s'.cut && s.asked == s'.asked
    ensures Sound(s) <==> Sound(s')
  {
  }

  /** Without an ERROR the request was answered as it asked. */
  lemma ArriveAnswers(s: Session, a: Act)
    requires Inv(s) && a.Arrive? && SessionRuns.Enabled(s, a)
    ensures |SessionRuns.Apply(s, a).fates| <= |s.asked|
    ensures Answered(SessionRuns.Apply(s, a))
  {
    hide SessionRuns.Apply, SessionRuns.Called, SR.Apply, Inv, Earned, ServerInv, View, HasTorn, RepliesTo,
         OwnAnswers, ErrorSent, ErrorSince, HasError, Upset, Moved, Throws, Judged, SessionRuns.Enabled, WireText;
    ArriveEarns(s, a);
    ArriveIs(s, a);
    ArriveGives(s, a);
    var s', thrown := SessionRuns.Apply(s, a), SessionRuns.Called(s, a).thrown.Some?;
    ErrorsStay(s.server.tables, s'.server.tables, s.me);
    TornStays(s, thrown, a.drop, a.cut);
    HasAnswered(s);
    assert s'.fates == Advanced(s, thrown, a.drop, a.cut).fates;
    if !HasTorn(s'.fates) {
      WholeIsJudged(s, a);
      var d := if thrown then a.drop else 0;
      assert Dropping(0) == [] && s.fates + [Whole] + [] == s.fates + [Whole];
      RepliesToNext(s.asked, s.fates, d);
    }
  }

  lemma HasAnswered(s: Session)
    requires Inv(s)
    ensures |s.fates| <= |s.asked| && Answered(s)
  {
  }

  lemma TornStays(s: Session, thrown: bool, drop: nat, cut: nat)
    ensures HasTorn(Advanced(s, thrown, drop, cut).fates) <==> HasTorn(s.fates) || s.cut > 0
  {
    DroppedOnly(drop);
    var s', n := Advanced(s, thrown, drop, cut), |s.fates|;
    assert s'.fates[n] == FateOf(s.cut) && forall k | 0 <= k < n :: s'.fates[k] == s.fates[k];
    if HasTorn(s.fates) {
      var k :| 0 <= k < n && s.fates[k].Torn?;
      assert s'.fates[k].Torn?;
    }
    assert thrown ==> forall k | n + 1 <= k < n + 1 + drop :: s'.fates[k] == Skipped;
  }

  lemma AdvanceKeeps(s: Session, s': Session)
    requires Inv(s)
    requires s' == s.(server := s'.server, fates := s'.fates, cut := s'.cut)
    requires |s'.fates| <= |s.asked| && (s'.cut > 0 ==> HasNext(s')) && (HasTorn(s.fates) ==> HasTorn(s'.fates))
    requires ServerInv(s') && s.server.tables.sent <= s'.server.tables.sent
    requires Earned(s'.server.tables.sent, s.me, s.asked, s'.fates)
    requires Answered(s') && (Clear(s') ==> Agreed(s'))
    ensures Inv(s')
  {
    hide Earned, AskedInv, ClientInv, ServerInv, Agreed, Answered, Clear, Inbox, HasTorn, HasNext;
    InboxGrows(s.server.tables.sent, s'.server.tables.sent, s.me);
  }

  lemma ArriveIs(s: Session, a: Act)
    requires a.Arrive? && SessionRuns.Enabled(s, a)
    ensures SessionRuns.Apply(s, a) ==
            Advanced(s, SessionRuns.Called(s, a).thrown.Some?, a.drop, a.cut)
              .(server := SR.Apply(s.server, NextStep(s, a.orders)))
    ensures HasNext(s) && s.me in s.server.protos && OrdersFit(s.server.tables, a.orders)
    ensures MayEndAt(s.asked, |s.fates| + 1, a.drop, a.cut)
  {
    hide Advanced, SR.Apply, SR.Called, NextStep, OrdersFit, MayEndAt;
  }

  lemma AdvancedShape(s: Session, thrown: bool, drop: nat, cut: nat)
    requires HasNext(s) && MayEndAt(s.asked, |s.fates| + 1, drop, cut)
    ensures var s' := Advanced(s, thrown, drop, cut);
            && s' == s.(fates := s'.fates, cut := s'.cut)
            && |s'.fates| <= |s.asked|
            && (s'.cut > 0 ==> HasNext(s'))
            && (HasTorn(s.fates) ==> HasTorn(s'.fates))
  {
    AdvancedIntact(s, thrown, drop, cut);
    DroppedOnly(drop);
    hide WireText, HasTorn, Intact;
  }

  lemma ArriveShape(s: Session, a: Act)
    requires a.Arrive? && SessionRuns.Enabled(s, a)
    ensures var s' := SessionRuns.Apply(s, a);
            && s' == s.(server := s'.server, fates := s'.fates, cut := s'.cut)
            && (s'.cut > 0 ==> HasNext(s'))
            && (HasTorn(s.fates) ==> HasTorn(s'.fates))
  {
    ArriveIs(s, a);
    AdvancedShape(s, SessionRuns.Called(s, a).thrown.Some?, a.drop, a.cut);
    hide Advanced, SessionRuns.Apply, SessionRuns.Called, SessionRuns.Enabled, SR.Apply, HasTorn, WireText, NextStep;
  }

  lemma ArriveKeeps(s: Session, a: Act)
    requires Inv(s) && a.Arrive? && SessionRuns.Enabled(s, a)
    ensures Inv(SessionRuns.Apply(s, a))
  {
    ArriveEarns(s, a);
    ArriveShape(s, a);
    hide Inv, SessionRuns.Apply, SessionRuns.Called, Earned, ServerInv, Agreed, Answered, Clear, HasTorn, HasNext,
         Intact;
    ArriveAnswers(s, a);
    var s' := SessionRuns.Apply(s, a);
    if Clear(s') {
      ArriveStaysAgreed(s, a);
    }
    AdvanceKeeps(s, s');
  }

  // ----- Frames are handled -----

  /** A RECEIPT in the inbox is earned by a request; when no torn request was
      taken for a frame, it names one that was processed. */
  lemma ReceiptIsEarned(s: Session, i: nat)
    requires Inv(s) && i < |Mail(s)| && Mail(s)[i].command == "RECEIPT"
    ensures exists k :: 0 <= k < |s.fates| && Earns(Mail(s)[i], s.asked[k], s.fates[k])
    ensures !HasTorn(s.fates) ==>
              exists k :: 0 <= k < |s.fates| && s.fates[k].Whole? && Acknowledges(Mail(s)[i], s.asked[k])
  {
    var j := InboxMember(s.server.tables.sent, s.me, i);
    hide Earns, Mail;
    var k :| 0 <= k < |s.fates| && Earns(s.server.tables.sent[j].frame, s.asked[k], s.fates[k]);
    EarnedHow(s, Mail(s)[i], k);
  }

  lemma EarnedHow(s: Session, f: Frame, k: nat)
    requires |s.fates| <= |s.asked| && k < |s.fates| && Earns(f, s.asked[k], s.fates[k])
    ensures s.fates[k].Torn? ==> HasTorn(s.fates)
    ensures !s.fates[k].Torn? ==> s.fates[k].Whole? && Acknowledges(f, s.asked[k])
  {
  }

  lemma AcknowledgedIsFiled(s: Session, f: Frame, k: nat)
    requires AskedInv(s.client, s.asked) && k < |s.asked| && Acknowledges(f, s.asked[k])
    ensures "receipt-id" in f.headers && f.headers["receipt-id"] in s.client.receipts
    ensures s.client.receipts[f.headers["receipt-id"]] == FrameOf(s.asked[k]).command
  {
    assert Filed(s.client, s.asked[k]);
  }

  lemma MailReadsBack(s: Session, i: nat, order: seq<string>)
    requires Inv(s) && i < |Mail(s)| && IsOrder(order, Mail(s)[i].headers.Keys)
    ensures var f := Mail(s)[i];
            CppParse(JavaPrint(f, order) + [NUL]) == Ok(f.(body := Norm(f.body + "\n") + [NUL]))
  {
    var j := InboxMember(s.server.tables.sent, s.me, i);
    ServerToClient(Mail(s)[i], order);
  }

  lemma FlagsFile(c: Client, c': Client, asked: seq<Request>)
    requires AskedInv(c, asked) && c' == c.(terminateKeyboard := c'.terminateKeyboard,
                                            terminateServerResponses := c'.terminateServerResponses)
    requires c.terminateKeyboard ==> c'.terminateKeyboard
    ensures AskedInv(c', asked)
  {
    forall i | 0 <= i < |asked|
      ensures Filed(c', asked[i])
    {
      assert Filed(c, asked[i]);
    }
  }

  lemma FlagsKeep(s: Session, keyboard: bool, responses: bool, seen: nat)
    requires Inv(s) && seen <= |Mail(s)| && (s.client.terminateKeyboard ==> keyboard)
    ensures Inv(s.(client := s.client.(terminateKeyboard := keyboard, terminateServerResponses := responses),
                   seen := seen))
  {
    var s' := s.(client := s.client.(terminateKeyboard := keyboard, terminateServerResponses := responses),
                 seen := seen);
    hide AskedInv;
    FlagsFile(s.client, s'.client, s.asked);
    assert ReceiptsFiled(s'.client) by {
      assert ReceiptsFiled(s.client);
    }
    hide Earned, AskedInv, ReceiptsFiled, ServerInv, Sane, Consistent, HasTorn, Answered;
  }

  lemma AnswerEndsAtMost(c: Client, answer: string) returns (keyboard: bool, responses: bool)
    requires AfterAnswer(c, answer).Ok?
    ensures AfterAnswer(c, answer) == Ok(c.(terminateKeyboard := keyboard, terminateServerResponses := responses))
    ensures c.terminateKeyboard ==> keyboard
  {
    hide CppParse, ReadMessage;
    keyboard := AfterAnswer(c, answer).value.terminateKeyboard;
    responses := AfterAnswer(c, answer).value.terminateServerResponses;
  }

  lemma HasAskedInv(s: Session)
    requires Inv(s)
    ensures AskedInv(s.client, s.asked) && |s.fates| <= |s.asked|
  {
  }

  /** A RECEIPT for which the client has no entry. */
  predicate Unfiled(c: Client, f: Frame) {
    f.command == "RECEIPT" && ("receipt-id" !in f.headers || f.headers["receipt-id"] !in c.receipts)
  }

  /** The exception over a MESSAGE whose report cannot be read. */
  function Unreadable(f: Frame, answer: string): Option<ReportError> {
    if f.command != "MESSAGE" then None
    else
      match ReadMessage(answer)
      case Ok(_) => None
      case Err(MissingDestination) => None
      case Err(e) => Some(e)
  }

  lemma ReceiptIsFound(s: Session, i: nat)
    requires Inv(s) && i < |Mail(s)| && Mail(s)[i].command == "RECEIPT" && !HasTorn(s.fates)
    ensures "receipt-id" in Mail(s)[i].headers && Mail(s)[i].headers["receipt-id"] in s.client.receipts
  {
    hide Inv, AskedInv, Mail, HasTorn, Earns, Acknowledges, FrameOf;
    HasAskedInv(s);
    ReceiptIsEarned(s, i);
    var k :| 0 <= k < |s.fates| && s.fates[k].Whole? && Acknowledges(Mail(s)[i], s.asked[k]);
    AcknowledgedIsFiled(s, Mail(s)[i], k);
  }

  function AnswerText(s: Session, order: seq<string>): string
    requires SessionRuns.Enabled(s, Handle(order))
  {
    JavaPrint(Mail(s)[s.seen], order) + [NUL]
  }

  /** What the next frame of the inbox does to the client, exactly. */
  lemma NextAnswer(s: Session, order: seq<string>)
    requires Inv(s) && SessionRuns.Enabled(s, Handle(order))
    ensures s.seen < |Mail(s)|
    ensures var f, r := Mail(s)[s.seen], AfterAnswer(s.client, AnswerText(s, order));
            && (r == Err(EndDereferenced) <==> Unfiled(s.client, f))
            && (forall e :: r == Err(Thrown(e)) <==> Unreadable(f, AnswerText(s, order)) == Some(e))
  {
    hide Inv, JavaPrint, IsOrder, Mail, CppParse, Norm, ReadMessage, HasNext, OrdersFit, Carried;
    MailReadsBack(s, s.seen, order);
    FrameNames();
  }

  lemma FrameNames()
    ensures "RECEIPT" != "MESSAGE"
  {
    AnswerNamesDiffer();
  }

  lemma FailKeeps(s: Session, e: SessionError)
    requires Inv(s) && (e == EndDereferenced ==> HasTorn(s.fates))
    ensures Inv(s.(failed := Some(e)))
  {
    hide HasTorn, Earned, SR.Inv, AllPrintable, AskedInv, ClientInv, Consistent, Inbox, Sane, OwnAnswers, RepliesTo,
         ErrorSent, View;
  }

  lemma HandledKeeps(s: Session, order: seq<string>)
    requires Inv(s) && SessionRuns.Enabled(s, Handle(order))
    ensures Inv(SessionRuns.Handled(s, order))
  {
    hide Inv, AfterAnswer, Unfiled, Unreadable, Mail, IsOrder, HasTorn, JavaPrint;
    NextAnswer(s, order);
    var answer := AnswerText(s, order);
    if AfterAnswer(s.client, answer).Ok? {
      var keyboard, responses := AnswerEndsAtMost(s.client, answer);
      FlagsKeep(s, keyboard, responses, s.seen + 1);
    } else {
      if Unfiled(s.client, Mail(s)[s.seen]) && !HasTorn(s.fates) {
        UnfiledIsNotFound(s);
      }
      FailKeeps(s, AfterAnswer(s.client, answer).error);
    }
  }

  lemma UnfiledIsNotFound(s: Session)
    requires Inv(s) && s.seen < |Mail(s)| && !HasTorn(s.fates)
    ensures !Unfiled(s.client, Mail(s)[s.seen])
  {
    hide Inv, Mail, HasTorn;
    if Mail(s)[s.seen].command == "RECEIPT" {
      ReceiptIsFound(s, s.seen);
    }
  }

  lemma HandleKeeps(s: Session, order: seq<string>)
    requires Inv(s) && SessionRuns.Enabled(s, Handle(order))
    ensures Inv(SessionRuns.Apply(s, Handle(order)))
  {
    hide Inv, SessionRuns.Handled, SessionRuns.Enabled;
    HandledKeeps(s, order);
  }

  lemma ActKeeps(s: Session, a: Act)
    requires Inv(s)
    ensures Inv(SessionRuns.Apply(s, a))
  {
    hide Inv;
    if SessionRuns.Enabled(s, a) {
      match a
      case Elsewhere(step) => ElsewhereKeeps(s, step);
      case Arrive(_, _, _) => ArriveKeeps(s, a);
      case Join(channel, taken) =>
        ClientIsGood(s);
        JoinIsGood(s.client, channel, taken);
        CommandKeeps(s, AfterJoin(s.client, channel, taken).0, AfterJoin(s.client, channel, taken).1);
      case Exit(channel, taken) =>
        ClientIsGood(s);
        ExitIsGood(s.client, channel, taken);
        CommandKeeps(s, AfterExit(s.client, channel, taken).0, AfterExit(s.client, channel, taken).1);
      case Report(user, channel, events, sends) => ReportKeeps(s, user, channel, events, sends);
      case Logout(taken) =>
        ClientIsGood(s);
        LogoutIsGood(s.client, taken);
        CommandKeeps(s, AfterLogout(s.client, taken).0, AfterLogout(s.client, taken).1);
      case Handle(order) => HandleKeeps(s, order);
      case Hangup =>
        ClientIsGood(s);
        FlagsKeep(s, true, true, s.seen);
    }
  }

  lemma ClientIsGood(s: Session)
    requires Inv(s)
    ensures ClientInv(s.client) && s.seen <= |Mail(s)|
  {
  }

  lemma BeginningInv(s: Session, steps: seq<SR.Step>, login: string, passcode: string)
    requires Begins(s, steps, login, passcode)
    ensures Inv(s)
  {
    var n := |steps| - 1;
    var w := SR.At(steps, n);
    assert s.server == SR.Apply(w, SR.CountConnection);
    hide SR.At;
    SR.RunKeeps(steps, n);
    SR.RunKeeps(steps, n + 1);
    RunPrintable(steps, n + 1);
    NewcomersAreFresh(steps, n, s.me);
    assert View(s.server.tables, s.me) == View(w.tables, s.me) == map[];
    assert s.server.tables.sent == w.tables.sent;
    assert Mail(s) == [];
    forall i | 0 <= i < |w.tables.sent| && w.tables.sent[i].to == s.me
      ensures false
    {
      NotInInbox(w.tables.sent, s.me, i);
    }
    var r := Connect(login, passcode);
    assert s.asked == [r] && s.asked[0..] == [r] && s.asked[..0] == [];
    OneConsistent(map[], r);
    assert OwnAnswers(s.server.tables.sent, s.me) == [];
    assert RepliesTo(s.asked, []) == [];
    assert s.me in s.server.tables.active;
  }

  lemma {:induction false} NotInInbox(sent: seq<Delivery>, me: int, i: nat)
    requires i < |sent| && sent[i].to == me
    ensures Inbox(sent, me) != []
    decreases |sent|
  {
    if i < |sent| - 1 {
      NotInInbox(sent[..|sent| - 1], me, i);
    }
  }

  /** Every reachable state of a session satisfies the invariants. */
  lemma {:induction false} SessionKeeps(s: Session, steps: seq<SR.Step>, login: string, passcode: string,
                                        acts: seq<Act>, n: nat)
    requires Begins(s, steps, login, passcode) && n <= |acts|
    ensures Inv(After(s, acts, n))
  {
    hide Begins, SessionRuns.Apply;
    if n == 0 {
      BeginningInv(s, steps, login, passcode);
    } else {
      SessionKeeps(s, steps, login, passcode, acts, n - 1);
      ActKeeps(After(s, acts, n - 1), acts[n - 1]);
    }
  }
}
