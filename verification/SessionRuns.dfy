/** One client session and the server, joined by two FIFO links, while other
    connections do what they like. */
module SessionRuns {
  import opened Text
  import opened StompFrames
  import opened Decimal
  import opened Reports
  import opened ConnectionTables
  import opened ServerProtocol
  import SR = ServerRuns
  import opened SentFrames
  import opened ServerView
  import opened ClientSession
  import opened OneCall
  import opened OwnRequests

  /** What became of a request: its whole text was processed; it fell into the
      rest of a chunk in which a call had thrown; or that chunk ended inside it,
      and only its text from `cut` on was taken for a frame. */
  datatype Fate = Whole | Skipped | Torn(cut: nat)

  datatype Session = Session(
    server: SR.World,
    me: int,
    client: Client,
    asked: seq<Request>,     // all that the client has put on its link
    fates: seq<Fate>,        // what became of those that are no longer under way
    cut: nat,                // how much of the next one is gone
    seen: nat,               // how many frames of its inbox the client has handled
    failed: Option<SessionError>)  // what has ended the thread that reads from the server

  datatype Act =
    | Elsewhere(step: SR.Step)
    | Arrive(orders: Orders, drop: nat, cut: nat)
    | Join(channel: string, taken: bool)
    | Exit(channel: string, taken: bool)
    | Report(user: string, channel: string, events: seq<Event>, sends: seq<bool>)
    | Logout(taken: bool)
    | Handle(order: seq<string>)
    | Hangup

  function Mail(s: Session): seq<Frame> {
    Inbox(s.server.tables.sent, s.me)
  }

  /** The keyboard is read: an exception that nobody catches ends the client. */
  predicate MayType(s: Session) {
    !s.client.terminateKeyboard && (s.failed.Some? ==> s.failed.value == EndDereferenced)
  }

  /** Numbers are ints: a command needs room for the numbers it takes. */
  predicate HasRoom(c: Client) {
    c.receiptNumber + 2 <= INT_MAX && c.subscriptionId < INT_MAX
  }

  /** The reports fit into one frame each. */
  predicate Carried(user: string, events: seq<Event>) {
    forall e | e in events && Reportable(e) :: Free(ReportBody(user, e), NUL)
  }

  /** The request that is next on the link, and how much of it is gone. */
  predicate HasNext(s: Session) {
    |s.fates| < |s.asked| && s.cut <= |WireText(s.asked[|s.fates|])|
  }

  /** A chunk may end behind `drop` more requests and inside the next. */
  predicate MayEndAt(asked: seq<Request>, n: nat, drop: nat, cut: nat) {
    && n + drop <= |asked|
    && (cut > 0 ==> n + drop < |asked| && cut <= |WireText(asked[n + drop])|)
  }

  predicate Enabled(s: Session, a: Act) {
    match a
    case Elsewhere(step) => SR.Enabled(s.server, step) && (step.Process? ==> step.conn != s.me)
    case Arrive(o, drop, cut) =>
      && HasNext(s) && s.me in s.server.protos && OrdersFit(s.server.tables, o)
      && MayEndAt(s.asked, |s.fates| + 1, drop, cut)
    case Join(channel, _) => MayType(s) && HasRoom(s.client) && Plain(channel)
    case Exit(channel, _) => MayType(s) && HasRoom(s.client)
    case Report(user, _, events, sends) =>
      MayType(s) && |sends| == |events| && Carried(user, events)
    case Logout(_) => MayType(s) && HasRoom(s.client)
    case Handle(order) =>
      && !s.client.terminateServerResponses && s.failed.None? && s.seen < |Mail(s)|
      && IsOrder(order, Mail(s)[s.seen].headers.Keys)
    case Hangup => true
  }

  /** The next text the decoder finds on the link. */
  function NextText(s: Session): string
    requires HasNext(s)
  {
    WireText(s.asked[|s.fates|])[s.cut..]
  }

  function NextStep(s: Session, o: Orders): SR.Step
    requires HasNext(s)
  {
    SR.Process(s.me, NextText(s), o)
  }

  function Called(s: Session, a: Act): Effect
    requires a.Arrive? && Enabled(s, a)
  {
    SR.Called(s.server, NextStep(s, a.orders))
  }

  /** What the call for the next text will do, as its connection can tell. */
  function Judged(s: Session, a: Act): Verdict
    requires a.Arrive? && Enabled(s, a)
  {
    TextVerdict(s.server.tables, s.me, NextText(s), a.orders)
  }

  function FateOf(cut: nat): Fate {
    if cut == 0 then Whole else Torn(cut)
  }

  function Dropping(n: nat): seq<Fate> {
    if n == 0 then [] else Dropping(n - 1) + [Skipped]
  }

  /** An exception leaves the read task, which drops the rest of its chunk. */
  function Advanced(s: Session, thrown: bool, drop: nat, cut: nat): Session {
    if thrown then s.(fates := s.fates + [FateOf(s.cut)] + Dropping(drop), cut := cut)
    else s.(fates := s.fates + [FateOf(s.cut)], cut := 0)
  }

  /** The client takes the next text off its link. */
  function Handled(s: Session, order: seq<string>): Session
    requires Enabled(s, Handle(order))
  {
    match AfterAnswer(s.client, JavaPrint(Mail(s)[s.seen], order) + [NUL])
    case Err(e) => s.(failed := Some(e))
    case Ok(c) => s.(client := c, seen := s.seen + 1)
  }

  function Asking(s: Session, c: Client, more: seq<Request>): Session {
    s.(client := c, asked := s.asked + more)
  }

  /** An act that cannot be taken changes nothing. */
  function Apply(s: Session, a: Act): Session {
    if !Enabled(s, a) then s
    else
      match a
      case Elsewhere(step) => s.(server := SR.Apply(s.server, step))
      case Arrive(o, drop, cut) =>
        Advanced(s, Called(s, a).thrown.Some?, drop, cut).(server := SR.Apply(s.server, NextStep(s, o)))
      case Join(channel, taken) => var (c, more) := AfterJoin(s.client, channel, taken); Asking(s, c, more)
      case Exit(channel, taken) => var (c, more) := AfterExit(s.client, channel, taken); Asking(s, c, more)
      case Report(user, channel, events, sends) =>
        Asking(s, s.client, AfterReport(s.client, user, channel, events, sends))
      case Logout(taken) => var (c, more) := AfterLogout(s.client, taken); Asking(s, c, more)
      case Handle(order) => Handled(s, order)
      case Hangup => s.(client := s.client.(terminateKeyboard := true, terminateServerResponses := true))
  }

  /** The session after the first `n` acts. */
  function After(s: Session, acts: seq<Act>, n: nat): Session
    requires n <= |acts|
  {
    if n == 0 then s else Apply(After(s, acts, n - 1), acts[n - 1])
  }

  /** A connection has just been accepted and its client has sent CONNECT. */
  predicate Begins(s: Session, steps: seq<SR.Step>, login: string, passcode: string) {
    && |steps| > 0
    && var n := |steps| - 1;
       && SR.At(steps, n).accepting && steps[n] == SR.CountConnection
       && s.me == SR.At(steps, n).tables.counter
       && Plain(login) && Plain(passcode)
       && s == Session(SR.At(steps, |steps|), s.me, NEW_CLIENT, [Connect(login, passcode)], [], 0, 0, None)
  }

  // ----- The invariants -----

  /** Applying what is under way to the server's view gives the client's. */
  predicate Consistent(view: map<string, int>, up: seq<Request>, subscriptions: map<string, int>)
    decreases |up|
  {
    if up == [] then view == subscriptions
    else Fits(view, up[0]) && Consistent(Track(view, up[0]), up[1..], subscriptions)
  }

  lemma {:induction false} ConsistentAppend(view: map<string, int>, up: seq<Request>, mid: map<string, int>,
                                            more: seq<Request>, subscriptions: map<string, int>)
    requires Consistent(view, up, mid) && Consistent(mid, more, subscriptions)
    ensures Consistent(view, up + more, subscriptions)
    decreases |up|
  {
    if up == [] {
      assert up + more == more;
    } else {
      ConsistentAppend(Track(view, up[0]), up[1..], mid, more, subscriptions);
      assert (up + more)[1..] == up[1..] + more;
    }
  }

  /** The receipt numbers below the counter, and only they, are filed. */
  ghost predicate ReceiptsFiled(c: Client) {
    && (forall n :: 0 <= n < c.receiptNumber ==> ToString(n) in c.receipts)
    && (forall k | k in c.receipts :: exists n :: 0 <= n < c.receiptNumber && ToString(n) == k)
  }

  ghost predicate ClientInv(c: Client) {
    && 0 <= c.receiptNumber <= INT_MAX && 0 <= c.subscriptionId <= INT_MAX
    && ReceiptsFiled(c)
    && Sane(c.subscriptions)
    && (forall ch | ch in c.subscriptions :: c.subscriptions[ch] < c.subscriptionId && Plain(ch))
  }

  /** A request is filed under its receipt. */
  predicate Filed(c: Client, r: Request) {
    && Sendable(r)
    && (Receipt(r).Some? ==>
          && 0 <= Receipt(r).value < c.receiptNumber
          && ToString(Receipt(r).value) in c.receipts
          && c.receipts[ToString(Receipt(r).value)] == FrameOf(r).command)
    && (r.Subscribe? || r.Unsubscribe? ==> r.id < c.subscriptionId)
    && (r.Disconnect? ==> c.terminateKeyboard)
  }

  predicate Later(r: Request, r': Request) {
    && !r.Disconnect?
    && !r'.Connect?
    && (Receipt(r).Some? && Receipt(r').Some? ==> Receipt(r).value < Receipt(r').value)
    && (r.Subscribe? && r'.Subscribe? ==> r.id < r'.id)
  }

  ghost predicate AskedInv(c: Client, asked: seq<Request>) {
    && (forall i | 0 <= i < |asked| :: Filed(c, asked[i]))
    && (forall i, j | 0 <= i < j < |asked| :: Later(asked[i], asked[j]))
  }

  ghost predicate ErrorSent(sent: seq<Delivery>, me: int) {
    exists i :: 0 <= i < |sent| && sent[i].to == me && sent[i].frame.command == "ERROR"
  }

  /** The answers to the requests that were processed, in order. */
  function RepliesTo(asked: seq<Request>, fates: seq<Fate>): seq<Frame>
    requires |fates| <= |asked|
  {
    if fates == [] then []
    else
      var n := |fates| - 1;
      RepliesTo(asked, fates[..n]) + if fates[n].Whole? then Reply(asked[n]) else []
  }

  /** Nothing on the link has been dropped or torn. */
  predicate Intact(s: Session) {
    (forall k | 0 <= k < |s.fates| :: s.fates[k].Whole?) && s.cut == 0
  }

  predicate HasTorn(fates: seq<Fate>) {
    exists k | 0 <= k < |fates| :: fates[k].Torn?
  }

  /** Nothing on the link has been torn, and only SENDs have been dropped. */
  predicate Sound(s: Session) {
    && s.cut == 0
    && forall k | 0 <= k < |s.fates| ::
         s.fates[k].Whole? || (s.fates[k].Skipped? && k < |s.asked| && s.asked[k].Send?)
  }

  predicate AllSends(asked: seq<Request>, from: nat, count: nat) {
    from + count <= |asked| && forall k | from <= k < from + count :: asked[k].Send?
  }

  /** The link is sound, and no ERROR has been sent. */
  ghost predicate Clear(s: Session) {
    Sound(s) && !ErrorSent(s.server.tables.sent, s.me)
  }

  ghost predicate Agreed(s: Session)
    requires |s.fates| <= |s.asked|
  {
    && Sane(View(s.server.tables, s.me))
    && Consistent(View(s.server.tables, s.me), s.asked[|s.fates|..], s.client.subscriptions)
  }

  /** Without an ERROR, and without a torn request, the connection is there and
      has been sent the answers to what was processed. */
  ghost predicate Answered(s: Session)
    requires |s.fates| <= |s.asked|
  {
    !ErrorSent(s.server.tables.sent, s.me) && !HasTorn(s.fates) ==>
      && s.me in s.server.tables.active
      && OwnAnswers(s.server.tables.sent, s.me) == RepliesTo(s.asked, s.fates)
  }

  predicate Acknowledges(f: Frame, r: Request) {
    Receipt(r).Some? && f == ReceiptFrame(Some(ToString(Receipt(r).value)))
  }

  /** The answer to what was left of a torn request. */
  predicate AnswersTorn(f: Frame, r: Request, cut: nat) {
    && cut <= |WireText(r)| && JavaParse(WireText(r)[cut..]).Ok?
    && var g := JavaParse(WireText(r)[cut..]).value;
       g.command in ["SUBSCRIBE", "UNSUBSCRIBE", "DISCONNECT"] && f == ReceiptFrame(Header(g, "receipt"))
  }

  predicate Earns(f: Frame, r: Request, fate: Fate) {
    match fate
    case Whole => Acknowledges(f, r)
    case Skipped => false
    case Torn(cut) => AnswersTorn(f, r, cut)
  }

  /** Every RECEIPT acknowledges a request that has been processed, or answers
      the rest of a torn one. */
  ghost predicate Earned(sent: seq<Delivery>, me: int, asked: seq<Request>, fates: seq<Fate>)
    requires |fates| <= |asked|
  {
    forall i | 0 <= i < |sent| && sent[i].to == me && sent[i].frame.command == "RECEIPT" ::
      exists k :: 0 <= k < |fates| && Earns(sent[i].frame, asked[k], fates[k])
  }

  ghost predicate ServerInv(s: Session) {
    && SR.Inv(s.server) && 0 <= s.me < s.server.tables.counter
    && AllPrintable(s.server.tables.sent)
  }

  ghost predicate Inv(s: Session) {
    && |s.fates| <= |s.asked| && (s.cut > 0 ==> HasNext(s))
    && s.seen <= |Mail(s)| && (s.failed == Some(EndDereferenced) ==> HasTorn(s.fates))
    && ServerInv(s)
    && ClientInv(s.client)
    && AskedInv(s.client, s.asked)
    && Consistent(map[], s.asked, s.client.subscriptions)
    && Earned(s.server.tables.sent, s.me, s.asked, s.fates)
    && Answered(s)
    && (Clear(s) ==> Agreed(s))
  }

  // ----- Commands -----

  /** What a command must do to keep the invariants. */
  ghost predicate GoodCommand(c: Client, c': Client, more: seq<Request>) {
    && ClientInv(c')
    && (forall k | k in c.receipts :: k in c'.receipts && c'.receipts[k] == c.receipts[k])
    && c.receiptNumber <= c'.receiptNumber && c.subscriptionId <= c'.subscriptionId
    && Consistent(c.subscriptions, more, c'.subscriptions)
    && (forall i | 0 <= i < |more| ::
          && Filed(c', more[i]) && !more[i].Connect?
          && (Receipt(more[i]).Some? ==> c.receiptNumber <= Receipt(more[i]).value)
          && (more[i].Subscribe? ==> c.subscriptionId <= more[i].id))
    && (|more| <= 1 || forall i | 0 <= i < |more| :: more[i].Send?)
  }

  lemma ProducedFiles(c: Client, command: string)
    requires 0 <= c.receiptNumber < INT_MAX && ReceiptsFiled(c)
    ensures ReceiptsFiled(Produced(c, command))
    ensures ToString(c.receiptNumber) !in c.receipts
    ensures Produced(c, command) ==
            c.(receiptNumber := c.receiptNumber + 1, receipts := c.receipts[ToString(c.receiptNumber) := command])
  {
    var n := c.receiptNumber;
    if ToString(n) in c.receipts {
      var m :| 0 <= m < n && ToString(m) == ToString(n);
      ToStringInjective(m, n);
      assert false;
    }
    var c' := Produced(c, command);
    forall k | k in c'.receipts
      ensures exists m :: 0 <= m < c'.receiptNumber && ToString(m) == k
    {
      if k != ToString(n) {
        var m :| 0 <= m < n && ToString(m) == k;
      }
    }
  }

  lemma OneConsistent(subscriptions: map<string, int>, r: Request)
    requires Fits(subscriptions, r)
    ensures Consistent(subscriptions, [r], Track(subscriptions, r))
  {
    assert [r][1..] == [];
  }

  lemma JoinIsGood(c: Client, channel: string, taken: bool)
    requires ClientInv(c) && HasRoom(c) && Plain(channel)
    ensures var (c', more) := AfterJoin(c, channel, taken); GoodCommand(c, c', more)
  {
    hide ReceiptsFiled, ToString, Sane;
    ProducedFiles(c, "SUBSCRIBE");
    SaneMore(c.subscriptions, channel, c.subscriptionId);
    FiledToo(Produced(c, "SUBSCRIBE"), AfterJoin(c, channel, taken).0);
    if channel !in c.subscriptions && taken {
      OneConsistent(c.subscriptions, Subscribe(channel, c.subscriptionId, c.receiptNumber));
    }
  }

  lemma FiledToo(c: Client, c': Client)
    requires ReceiptsFiled(c) && c'.receipts == c.receipts && c'.receiptNumber == c.receiptNumber
    ensures ReceiptsFiled(c')
  {
  }

  lemma SaneMore(subscriptions: map<string, int>, channel: string, id: int)
    requires Sane(subscriptions) && 0 <= id && forall ch | ch in subscriptions :: subscriptions[ch] < id
    ensures channel !in subscriptions ==> Sane(subscriptions[channel := id])
  {
  }

  /** exit takes two receipt numbers. */
  lemma ProducedTwice(c: Client)
    requires ClientInv(c) && HasRoom(c)
    ensures var c1 := Produced(c, "UNSUBSCRIBE");
            var c2 := Produced(c1, "UNSUBSCRIBE");
            && GoodCommand(c, c1, [])
            && c1.receiptNumber == c.receiptNumber + 1 && c2.receiptNumber == c.receiptNumber + 2 <= INT_MAX
            && c2 == c.(receiptNumber := c2.receiptNumber, receipts := c2.receipts) && ReceiptsFiled(c2)
            && (forall k | k in c.receipts :: k in c2.receipts && c2.receipts[k] == c.receipts[k])
            && ToString(c1.receiptNumber) in c2.receipts && c2.receipts[ToString(c1.receiptNumber)] == "UNSUBSCRIBE"
  {
    hide ReceiptsFiled, Produced, ToString, Sane;
    ProducedFiles(c, "UNSUBSCRIBE");
    var c1 := Produced(c, "UNSUBSCRIBE");
    ProducedFiles(c1, "UNSUBSCRIBE");
  }

  lemma ExitIsGood(c: Client, channel: string, taken: bool)
    requires ClientInv(c) && HasRoom(c)
    ensures var (c', more) := AfterExit(c, channel, taken); GoodCommand(c, c', more)
  {
    hide ClientInv, ReceiptsFiled, Produced, ToString, GoodCommand;
    ProducedTwice(c);
    if channel in c.subscriptions {
      var c1 := Produced(c, "UNSUBSCRIBE");
      ErasingIsGood(c, Produced(c1, "UNSUBSCRIBE"), channel, c1.receiptNumber);
    }
  }

  lemma ErasingIsGood(c: Client, c2: Client, channel: string, receipt: int)
    requires ClientInv(c) && channel in c.subscriptions && c.receiptNumber <= receipt < c2.receiptNumber <= INT_MAX
    requires c2 == c.(receiptNumber := c2.receiptNumber, receipts := c2.receipts) && ReceiptsFiled(c2)
    requires forall k | k in c.receipts :: k in c2.receipts && c2.receipts[k] == c.receipts[k]
    requires ToString(receipt) in c2.receipts && c2.receipts[ToString(receipt)] == "UNSUBSCRIBE"
    ensures GoodCommand(c, c2, [])
    ensures GoodCommand(c, c2.(subscriptions := c.subscriptions - {channel}),
                        [Unsubscribe(channel, c.subscriptions[channel], receipt)])
  {
    var r := Unsubscribe(channel, c.subscriptions[channel], receipt);
    OneConsistent(c.subscriptions, r);
    TrackIsSane(c.subscriptions, r);
    FiledToo(c2, c2.(subscriptions := c.subscriptions - {channel}));
    hide ReceiptsFiled, ToString;
  }

  lemma LogoutIsGood(c: Client, taken: bool)
    requires ClientInv(c) && HasRoom(c)
    ensures var (c', more) := AfterLogout(c, taken); GoodCommand(c, c', more)
  {
    ProducedFiles(c, "DISCONNECT");
    OneConsistent(c.subscriptions, Disconnect(c.receiptNumber));
  }

  lemma {:induction false} ReportIsGood(c: Client, user: string, channel: string, events: seq<Event>, sends: seq<bool>)
    requires ClientInv(c) && |sends| == |events| && Carried(user, events)
    requires channel in c.subscriptions
    ensures var more := ReportsOf(user, channel, events, sends);
            && Consistent(c.subscriptions, more, c.subscriptions)
            && (forall i | 0 <= i < |more| :: more[i].Send? && more[i].channel == channel && Free(more[i].body, NUL))
    decreases |events|
  {
    if events != [] {
      var n := |events| - 1;
      assert events[n] in events && forall e | e in events[..n] :: e in events;
      ReportIsGood(c, user, channel, events[..n], sends[..n]);
      var last := ReportOf(user, channel, events[n], sends[n]);
      if last != [] {
        OneConsistent(c.subscriptions, last[0]);
      }
      ConsistentAppend(c.subscriptions, ReportsOf(user, channel, events[..n], sends[..n]), c.subscriptions,
                       last, c.subscriptions);
    }
  }
}
