/** Runs of the server over its shared tables.  A call of `process` is one step;
    accepting a connection is two, because the handler stores itself under the
    counter before the counter moves on. */
module ServerRuns {
  import opened Text
  import opened StompFrames
  import opened ConnectionTables
  import opened ServerProtocol

  datatype World = World(tables: Tables, accepting: bool, protos: map<int, Proto>)

  datatype Step =
    | AddConnection
    | CountConnection
    | Process(conn: int, message: string, orders: Orders)

  const EMPTY_TABLES := Tables(map[], map[], map[], map[], 0, {}, [])

  const INITIAL := World(EMPTY_TABLES, false, map[])

  predicate Enabled(w: World, s: Step) {
    match s
    case AddConnection => !w.accepting
    case CountConnection => w.accepting
    case Process(conn, _, o) => conn in w.protos && OrdersFit(w.tables, o)
  }

  /** What the call makes of the protocol object: `start`, then `process`. */
  function Called(w: World, s: Step): Effect
    requires Enabled(w, s) && s.Process?
  {
    Processed(w.tables, w.protos[s.conn].(connectionID := s.conn), s.message, s.orders)
  }

  /** A step that cannot be taken changes nothing, so that every sequence of
      steps is a run. */
  function Apply(w: World, s: Step): World {
    if !Enabled(w, s) then w
    else
      match s
      case AddConnection =>
        w.(tables := w.tables.(active := w.tables.active[w.tables.counter := Conn(w.tables.counter)]),
           accepting := true)
      case CountConnection =>
        World(w.tables.(counter := w.tables.counter + 1), false, w.protos[w.tables.counter := Proto(false, 0, 0)])
      case Process(conn, _, _) =>
        var e := Called(w, s);
        w.(tables := e.tables, protos := w.protos[conn := e.proto])
  }

  /** The state after the first `n` steps of a run. */
  function At(steps: seq<Step>, n: nat): World
    requires n <= |steps|
  {
    if n == 0 then INITIAL else Apply(At(steps, n - 1), steps[n - 1])
  }

  // ----- What the recursive operations do -----

  /** The connections a broadcast reaches: those before a null key. */
  function Reached(order: seq<Handler>): (r: seq<int>)
    ensures |r| <= |order| && forall i | 0 <= i < |r| :: order[i] == Conn(r[i])
    ensures |r| < |order| ==> order[|r|] == Null
    decreases |order|
  {
    if order == [] || order[0].Null? then [] else [order[0].id] + Reached(order[1..])
  }

  function Deliveries(to: seq<int>, frame: Frame): seq<Delivery> {
    if to == [] then [] else [Delivery(to[0], frame)] + Deliveries(to[1..], frame)
  }

  lemma {:induction false} BroadcastReaches(t: Tables, order: seq<Handler>, frame: Frame)
    ensures Broadcast(t, order, frame) ==
            (t.(sent := t.sent + Deliveries(Reached(order), frame)), if Null in order then Some(NullPointer) else None)
    decreases |order|
  {
    if order == [] || order[0].Null? {
      assert t.sent + Deliveries([], frame) == t.sent;
    } else {
      var d := Delivery(order[0].id, frame);
      BroadcastReaches(t.(sent := t.sent + [d]), order[1..], frame);
      var rest := Reached(order[1..]);
      assert ([order[0].id] + rest)[1..] == rest;
      Assoc(t.sent, [d], Deliveries(rest, frame));
      assert order == [order[0]] + order[1..];
    }
  }

  /** Unsubscribing takes this handler off one channel on which it has this
      box, when there is one. */
  lemma {:induction false} UnsubscribedMeans(t: Tables, subId: int, h: Handler, order: seq<string>) returns (ch: string)
    ensures Unsubscribed(t, subId, h, order).1 <==>
            (exists c | c in order :: c in t.channels && h in t.channels[c] && SameBox(t.channels[c][h], subId))
    ensures Unsubscribed(t, subId, h, order).1 ==>
              && ch in order && ch in t.channels && h in t.channels[ch] && SameBox(t.channels[ch][h], subId)
              && Unsubscribed(t, subId, h, order).0 == t.(channels := t.channels[ch := t.channels[ch] - {h}])
    ensures !Unsubscribed(t, subId, h, order).1 ==> Unsubscribed(t, subId, h, order).0 == t
    decreases |order|
  {
    if order == [] {
      ch := "";
    } else if order[0] in t.channels && h in t.channels[order[0]] && SameBox(t.channels[order[0]][h], subId) {
      ch := order[0];
    } else {
      ch := UnsubscribedMeans(t, subId, h, order[1..]);
    }
  }

  /** disconnect changes subscriptions only of the handler it looked up. */
  predicate OnlyDropped(t: Tables, t': Tables, target: Handler) {
    && t'.channels.Keys == t.channels.Keys
    && (forall ch | ch in t.channels ::
          t'.channels[ch] == t.channels[ch] || t'.channels[ch] == t.channels[ch] - {target})
    && t' == t.(channels := t'.channels)
  }

  /** The iterator meets this key and has more to come. */
  predicate BeforeLast(target: Handler, order: seq<Handler>) {
    order != [] && target in order[..|order| - 1]
  }

  lemma {:induction false} DroppedMeans(subs: map<Handler, int>, target: Handler, order: seq<Handler>)
    ensures Dropped(subs, target, order).0 == if target in order then subs - {target} else subs
    ensures Dropped(subs, target, order).1 == if BeforeLast(target, order) then Some(ConcurrentModification) else None
    decreases |order|
  {
    if order != [] {
      assert order[..|order| - 1] == if |order| == 1 then [] else [order[0]] + order[1..][..|order| - 2];
      if order[0] != target {
        DroppedMeans(subs, target, order[1..]);
      }
    }
  }

  lemma DroppedOnce(t: Tables, target: Handler, ch: string, order: seq<Handler>)
    requires ch in t.channels && IsOrder(order, t.channels[ch].Keys)
    ensures var (subs, thrown) := Dropped(t.channels[ch], target, order);
            var t' := t.(channels := t.channels[ch := subs]);
            && OnlyDropped(t, t', target)
            && (target !in t.channels[ch] ==> t' == t && thrown.None?)
  {
    DroppedMeans(t.channels[ch], target, order);
    hide Dropped;
    assert target !in t.channels[ch] ==> t.channels[ch := t.channels[ch]] == t.channels;
  }

  lemma DroppedTwice(t: Tables, t': Tables, t'': Tables, target: Handler)
    requires OnlyDropped(t, t', target) && OnlyDropped(t', t'', target)
    ensures OnlyDropped(t, t'', target)
  {
  }

  lemma {:induction false} DroppedFromAllMeans(t: Tables, target: Handler, order: seq<string>, o: Orders)
    requires forall ch | ch in order :: ch in t.channels && ch in o.subscribers
    requires forall i, j | 0 <= i < j < |order| :: order[i] != order[j]
    requires forall ch | ch in order :: IsOrder(o.subscribers[ch], t.channels[ch].Keys)
    ensures OnlyDropped(t, DroppedFromAll(t, target, order, o).0, target)
    ensures (forall ch | ch in order :: target !in t.channels[ch]) ==> DroppedFromAll(t, target, order, o) == (t, None)
    decreases |order|
  {
    if order != [] {
      var ch := order[0];
      DroppedOnce(t, target, ch, o.subscribers[ch]);
      hide Dropped, IsOrder, OnlyDropped;
      var (subs, thrown) := Dropped(t.channels[ch], target, o.subscribers[ch]);
      var t' := t.(channels := t.channels[ch := subs]);
      if thrown.None? {
        assert forall c | c in order[1..] :: c in order && c != ch && t'.channels[c] == t.channels[c];
        DroppedFromAllMeans(t', target, order[1..], o);
        DroppedTwice(t, t', DroppedFromAll(t', target, order[1..], o).0, target);
      }
    } else {
      assert DroppedFromAll(t, target, order, o) == (t, None);
    }
  }

  lemma {:induction false} LoggedOutMeans(loggedIn: map<string, int>, id: int, order: seq<string>)
    returns (login: string)
    ensures LoggedOut(loggedIn, id, order) == loggedIn <==>
            (forall l | l in order && l in loggedIn :: loggedIn[l] != id)
    ensures LoggedOut(loggedIn, id, order) != loggedIn ==>
              && login in order && login in loggedIn && loggedIn[login] == id
              && LoggedOut(loggedIn, id, order) == loggedIn - {login}
    decreases |order|
  {
    if order == [] {
      login := "";
    } else if order[0] in loggedIn && loggedIn[order[0]] == id {
      login := order[0];
      assert login !in loggedIn - {login};
    } else {
      login := LoggedOutMeans(loggedIn, id, order[1..]);
    }
  }

  /** disconnect removes under some iterator that has not come to its end. */
  predicate DropFails(t: Tables, o: Orders)
    requires OrdersFit(t, o)
  {
    exists ch | ch in t.channels :: BeforeLast(Lookup(t, t.counter), o.subscribers[ch])
  }

  lemma {:induction false} DroppedFromAllFails(t: Tables, target: Handler, order: seq<string>, o: Orders)
    requires forall ch | ch in order :: ch in t.channels && ch in o.subscribers
    requires forall i, j | 0 <= i < j < |order| :: order[i] != order[j]
    ensures DroppedFromAll(t, target, order, o).1 ==
            if exists ch | ch in order :: BeforeLast(target, o.subscribers[ch])
            then Some(ConcurrentModification) else None
    decreases |order|
  {
    if order != [] {
      var ch := order[0];
      DroppedMeans(t.channels[ch], target, o.subscribers[ch]);
      var subs := Dropped(t.channels[ch], target, o.subscribers[ch]).0;
      hide Dropped, BeforeLast;
      assert forall c | c in order :: c == ch || c in order[1..];
      DroppedFromAllFails(t.(channels := t.channels[ch := subs]), target, order[1..], o);
    }
  }

  /** disconnect throws exactly when it removes a key before the last of its
      channel, and otherwise returns normally. */
  lemma DisconnectedFails(t: Tables, id: int, o: Orders)
    requires OrdersFit(t, o)
    ensures Disconnected(t, id, o).1 == if DropFails(t, o) then Some(ConcurrentModification) else None
  {
    DroppedFromAllFails(t.(loggedIn := LoggedOut(t.loggedIn, id, o.logins)), Lookup(t, t.counter), o.channels, o);
  }

  /** One call of disconnect, on the whole state. */
  lemma DisconnectedMeans(t: Tables, id: int, o: Orders)
    requires OrdersFit(t, o)
    ensures var t' := Disconnected(t, id, o).0;
            && t'.loggedIn == LoggedOut(t.loggedIn, id, o.logins)
            && OnlyDropped(t.(loggedIn := t'.loggedIn), t', Lookup(t, t.counter))
    ensures (forall ch | ch in t.channels :: Lookup(t, t.counter) !in t.channels[ch]) ==>
              Disconnected(t, id, o) == (t.(loggedIn := LoggedOut(t.loggedIn, id, o.logins)), None)
  {
    DroppedFromAllMeans(t.(loggedIn := LoggedOut(t.loggedIn, id, o.logins)), Lookup(t, t.counter), o.channels, o);
  }

  // ----- What disconnect does, exactly -----

  /** No removal has failed on the channels in front of this one. */
  predicate GotTo(target: Handler, order: seq<string>, o: Orders, i: nat)
    requires i <= |order| && forall ch | ch in order :: ch in o.subscribers
  {
    forall j | 0 <= j < i :: !BeforeLast(target, o.subscribers[order[j]])
  }

  lemma GotToNext(target: Handler, order: seq<string>, o: Orders, i: nat)
    requires 0 < i <= |order| && forall ch | ch in order :: ch in o.subscribers
    ensures forall ch | ch in order[1..] :: ch in o.subscribers
    ensures GotTo(target, order, o, i) <==>
            !BeforeLast(target, o.subscribers[order[0]]) && GotTo(target, order[1..], o, i - 1)
  {
    hide BeforeLast;
    if GotTo(target, order, o, i) {
      forall j | 0 <= j < i - 1
        ensures !BeforeLast(target, o.subscribers[order[1..][j]])
      {
        assert order[1..][j] == order[j + 1];
      }
    } else if !BeforeLast(target, o.subscribers[order[0]]) {
      var j :| 0 <= j < i && BeforeLast(target, o.subscribers[order[j]]);
      assert order[1..][j - 1] == order[j];
    }
  }

  /** The key goes from every channel up to the first failing one. */
  predicate DroppedUpToFailure(t: Tables, t': Tables, target: Handler, order: seq<string>, o: Orders)
    requires forall ch | ch in order :: ch in t.channels && ch in o.subscribers
  {
    && t' == t.(channels := t'.channels) && t'.channels.Keys == t.channels.Keys
    && (forall ch | ch in t.channels && ch !in order :: t'.channels[ch] == t.channels[ch])
    && (forall i | 0 <= i < |order| ::
          t'.channels[order[i]] ==
          if GotTo(target, order, o, i) then t.channels[order[i]] - {target} else t.channels[order[i]])
  }

  /** The first channel loses its key, and its removal fails: that is all. */
  lemma FirstFails(t: Tables, t': Tables, target: Handler, order: seq<string>, o: Orders)
    requires order != [] && forall ch | ch in order :: ch in t.channels && ch in o.subscribers
    requires forall i, j | 0 <= i < j < |order| :: order[i] != order[j]
    requires BeforeLast(target, o.subscribers[order[0]])
    requires t' == t.(channels := t.channels[order[0] := t.channels[order[0]] - {target}])
    ensures DroppedUpToFailure(t, t', target, order, o)
  {
    StartsAt(target, order, o);
    hide BeforeLast, GotTo;
    forall i | 0 < i < |order|
      ensures !GotTo(target, order, o, i)
    {
      GotToNext(target, order, o, i);
    }
  }

  /** The first channel loses its key, and so it goes on. */
  lemma FirstIsFine(t: Tables, t': Tables, t'': Tables, target: Handler, order: seq<string>, o: Orders)
    requires order != [] && forall ch | ch in order :: ch in t.channels && ch in o.subscribers
    requires forall i, j | 0 <= i < j < |order| :: order[i] != order[j]
    requires !BeforeLast(target, o.subscribers[order[0]])
    requires t' == t.(channels := t.channels[order[0] := t.channels[order[0]] - {target}])
    requires forall ch | ch in order[1..] :: ch in t'.channels && ch in o.subscribers
    requires DroppedUpToFailure(t', t'', target, order[1..], o)
    ensures DroppedUpToFailure(t, t'', target, order, o)
  {
    hide BeforeLast, GotTo;
    var ch := order[0];
    assert order == [ch] + order[1..] && ch !in order[1..];
    forall c | c in t.channels && c !in order
      ensures t''.channels[c] == t.channels[c]
    {
      assert c !in order[1..];
    }
    assert t'' == t.(channels := t''.channels) && t''.channels.Keys == t.channels.Keys;
    forall i | 0 <= i < |order|
      ensures t''.channels[order[i]] ==
              if GotTo(target, order, o, i) then t.channels[order[i]] - {target} else t.channels[order[i]]
    {
      if i == 0 {
        StartsAt(target, order, o);
        assert t''.channels[ch] == t'.channels[ch];
      } else {
        LaterChannel(t', t'', target, order, o, i);
        assert order[i] != ch && t'.channels[order[i]] == t.channels[order[i]];
      }
    }
  }

  lemma LaterChannel(t': Tables, t'': Tables, target: Handler, order: seq<string>, o: Orders, i: nat)
    requires 0 < i < |order| && forall ch | ch in order :: ch in t'.channels && ch in o.subscribers
    requires !BeforeLast(target, o.subscribers[order[0]])
    requires forall ch | ch in order[1..] :: ch in t'.channels && ch in o.subscribers
    requires DroppedUpToFailure(t', t'', target, order[1..], o)
    ensures order[i] in t''.channels
    ensures t''.channels[order[i]] ==
            if GotTo(target, order, o, i) then t'.channels[order[i]] - {target} else t'.channels[order[i]]
  {
    hide BeforeLast, GotTo;
    GotToNext(target, order, o, i);
    assert order[i] == order[1..][i - 1];
  }

  lemma {:induction false} DroppedExactly(t: Tables, target: Handler, order: seq<string>, o: Orders)
    requires forall ch | ch in order :: ch in t.channels && ch in o.subscribers
    requires forall i, j | 0 <= i < j < |order| :: order[i] != order[j]
    requires forall ch | ch in order :: IsOrder(o.subscribers[ch], t.channels[ch].Keys)
    ensures DroppedUpToFailure(t, DroppedFromAll(t, target, order, o).0, target, order, o)
    decreases |order|
  {
    if order != [] {
      var ch := order[0];
      DroppedMeans(t.channels[ch], target, o.subscribers[ch]);
      OrderHas(target, t.channels[ch], o.subscribers[ch]);
      hide Dropped, IsOrder, BeforeLast, GotTo, DroppedUpToFailure;
      var (subs, thrown) := Dropped(t.channels[ch], target, o.subscribers[ch]);
      var t' := t.(channels := t.channels[ch := subs]);
      if thrown.None? {
        assert forall c | c in order[1..] :: c in order && c != ch && t'.channels[c] == t.channels[c];
        DroppedExactly(t', target, order[1..], o);
        FirstIsFine(t, t', DroppedFromAll(t', target, order[1..], o).0, target, order, o);
      } else {
        FirstFails(t, t', target, order, o);
      }
    }
  }

  lemma StartsAt(target: Handler, order: seq<string>, o: Orders)
    requires forall ch | ch in order :: ch in o.subscribers
    ensures GotTo(target, order, o, 0)
  {
  }

  lemma OrderHas(target: Handler, subs: map<Handler, int>, order: seq<Handler>)
    requires IsOrder(order, subs.Keys)
    ensures target !in order ==> subs - {target} == subs
  {
  }

  /** The first login of this connection, in iteration order. */
  predicate FirstHeld(loggedIn: map<string, int>, id: int, order: seq<string>, i: nat) {
    && i < |order| && order[i] in loggedIn && loggedIn[order[i]] == id
    && forall j | 0 <= j < i :: order[j] in loggedIn ==> loggedIn[order[j]] != id
  }

  /** That login is given up, and no other. */
  predicate GivesUp(before: map<string, int>, after: map<string, int>, id: int, order: seq<string>) {
    && (forall i: nat | i < |order| && FirstHeld(before, id, order, i) :: after == before - {order[i]})
    && ((forall l | l in before :: before[l] != id) ==> after == before)
  }

  lemma {:induction false} LoggedOutExactly(loggedIn: map<string, int>, id: int, order: seq<string>)
    ensures forall i: nat | i < |order| && FirstHeld(loggedIn, id, order, i) ::
              LoggedOut(loggedIn, id, order) == loggedIn - {order[i]}
    decreases |order|
  {
    if order != [] && !(order[0] in loggedIn && loggedIn[order[0]] == id) {
      LoggedOutExactly(loggedIn, id, order[1..]);
      forall i: nat | i < |order| && FirstHeld(loggedIn, id, order, i)
        ensures LoggedOut(loggedIn, id, order) == loggedIn - {order[i]}
      {
        assert i > 0 && order[i] == order[1..][i - 1];
        assert forall j | 0 <= j < i - 1 :: order[1..][j] == order[j + 1];
        assert FirstHeld(loggedIn, id, order[1..], i - 1);
      }
    }
  }

  /** All that one call of disconnect does. */
  lemma DisconnectedExactly(t: Tables, id: int, o: Orders)
    requires OrdersFit(t, o)
    ensures var (t', thrown) := Disconnected(t, id, o);
            && GivesUp(t.loggedIn, t'.loggedIn, id, o.logins)
            && DroppedUpToFailure(t.(loggedIn := t'.loggedIn), t', Lookup(t, t.counter), o.channels, o)
            && (thrown.Some? <==> DropFails(t, o))
  {
    LoggedOutExactly(t.loggedIn, id, o.logins);
    var login := LoggedOutMeans(t.loggedIn, id, o.logins);
    var t1 := t.(loggedIn := LoggedOut(t.loggedIn, id, o.logins));
    DroppedExactly(t1, Lookup(t, t.counter), o.channels, o);
    DisconnectedFails(t, id, o);
    hide DroppedFromAll, DroppedUpToFailure, LoggedOut, DropFails, IsOrder;
  }

  // ----- The invariant of the tables -----

  predicate TablesInv(t: Tables, accepting: bool) {
    && 0 <= t.counter
    && (forall id | id in t.active ::
          t.active[id] == Conn(id) && 0 <= id && (id < t.counter || (accepting && id == t.counter)))
    && (accepting ==> t.counter in t.active)
    && KeysKnown(t)
    && (forall l | l in t.loggedIn :: l in t.users && 0 <= t.loggedIn[l] < t.counter)
  }

  predicate Known(h: Handler, counter: int) {
    h == Null || (h.Conn? && 0 <= h.id < counter)
  }

  /** Subscriptions belong to counted connections, or to the null key. */
  predicate KeysKnown(t: Tables) {
    forall ch, h | ch in t.channels && h in t.channels[ch] :: Known(h, t.counter)
  }

  ghost predicate Inv(w: World) {
    && TablesInv(w.tables, w.accepting)
    && (forall c :: c in w.protos <==> 0 <= c < w.tables.counter)
  }

  predicate EffectKeeps(t: Tables, p: Proto, e: Effect, accepting: bool) {
    TablesInv(e.tables, accepting) && e.tables.counter == t.counter && e.proto.connectionID == p.connectionID
  }

  lemma DisconnectedKeeps(t: Tables, id: int, o: Orders, accepting: bool)
    requires OrdersFit(t, o) && TablesInv(t, accepting)
    ensures TablesInv(Disconnected(t, id, o).0, accepting)
    ensures Disconnected(t, id, o).0.counter == t.counter
  {
    DisconnectedMeans(t, id, o);
    var t' := Disconnected(t, id, o).0;
    var login := LoggedOutMeans(t.loggedIn, id, o.logins);
    forall ch, h | ch in t'.channels && h in t'.channels[ch]
      ensures Known(h, t'.counter)
    {
      assert h in t.channels[ch];
    }
  }

  lemma AnswerKeeps(t: Tables, p: Proto, frame: Frame, accepting: bool)
    requires TablesInv(t, accepting)
    ensures EffectKeeps(t, p, Answer(t, p, frame), accepting)
  {
  }

  /** Answering, and rejecting once or twice, from tables that hold the invariant. */
  lemma RejectedKeeps(t: Tables, p: Proto, frame: Frame, o: Orders, accepting: bool)
    requires OrdersFit(t, o) && TablesInv(t, accepting) && 0 <= p.connectionID < t.counter
    ensures EffectKeeps(t, p, Answer(t, p, frame), accepting)
    ensures EffectKeeps(t, p, Rejected(t, p, frame, o), accepting)
  {
    var e := Answer(t, p, frame);
    if e.thrown.None? {
      DisconnectedKeeps(e.tables.(closed := e.tables.closed + {p.connectionID}), p.connectionID, o, accepting);
    }
  }

  lemma RejectedTwiceKeeps(t: Tables, p: Proto, frame: Frame, o: Orders, accepting: bool)
    requires OrdersFit(t, o) && TablesInv(t, accepting) && 0 <= p.connectionID < t.counter
    ensures EffectKeeps(t, p, Answer(t, p, frame), accepting)
    ensures OrdersFit(Answer(t, p, frame).tables, o)
    ensures EffectKeeps(t, p, Rejected(Answer(t, p, frame).tables, p, frame, o), accepting)
  {
    RejectedKeeps(t, p, frame, o, accepting);
    RejectedKeeps(Answer(t, p, frame).tables, p, frame, o, accepting);
  }

  lemma OnUnsubscribeKeeps(t: Tables, p: Proto, f: Frame, o: Orders, accepting: bool)
    requires OrdersFit(t, o) && TablesInv(t, accepting) && 0 <= p.connectionID < t.counter
    ensures EffectKeeps(t, p, OnUnsubscribe(t, p, f, o), accepting)
  {
    match HeaderNumber(Header(f, "id"))
    case Err(_) =>
    case Ok(subId) =>
      var ch := UnsubscribedMeans(t, subId, Lookup(t, p.connectionID), o.channels);
      var (t', done) := Unsubscribed(t, subId, Lookup(t, p.connectionID), o.channels);
      assert KeysKnown(t');
      if !done {
        RejectedKeeps(t, p, ErrorFrame(map[
          "receipt-id" := Printed(Header(f, "receipt")),
          "message" := "The user isn't subscribed with that number: " + Printed(Header(f, "id"))]), o, accepting);
      }
  }

  lemma SubscribedKeeps(t: Tables, channel: string, subId: int, id: int, accepting: bool)
    requires TablesInv(t, accepting) && 0 <= id < t.counter
    ensures var (t', done) := Subscribed(t, channel, subId, Lookup(t, id));
            TablesInv(t', accepting) && t' == t.(channels := t'.channels) && (!done ==> t' == t)
  {
    var (t', done) := Subscribed(t, channel, subId, Lookup(t, id));
    assert KeysKnown(t');
  }

  lemma OnSubscribeKeeps(t: Tables, p: Proto, f: Frame, o: Orders, accepting: bool)
    requires OrdersFit(t, o) && TablesInv(t, accepting) && 0 <= p.connectionID < t.counter
    ensures EffectKeeps(t, p, OnSubscribe(t, p, f, o), accepting)
  {
    if HeaderNumber(Header(f, "id")).Ok? && Header(f, "destination").Some? {
      var channel := Header(f, "destination").value;
      var (t', done) := Subscribed(t, channel, HeaderNumber(Header(f, "id")).value, Lookup(t, p.connectionID));
      SubscribedKeeps(t, channel, HeaderNumber(Header(f, "id")).value, p.connectionID, accepting);
      hide Subscribed, HeaderNumber, Rejected, OrdersFit;
      if !done {
        RejectedKeeps(t, p, ErrorFrame(map[
          "receipt-id" := Printed(Header(f, "receipt")),
          "message" := "The user already subscribed to channel: " + channel]), o, accepting);
      }
    }
  }

  lemma OnSendKeeps(t: Tables, p: Proto, f: Frame, o: Orders, accepting: bool)
    requires OrdersFit(t, o) && TablesInv(t, accepting) && 0 <= p.connectionID < t.counter
    ensures EffectKeeps(t, p, OnSend(t, p, f, o), accepting)
  {
    if Header(f, "destination").Some? {
      var channel := Header(f, "destination").value;
      var subId := UserSubId(t, channel, p.connectionID);
      if subId == -1 {
        var error := ErrorFrame(map["message" := "The user isn't subscribed to channel: " + channel]);
        RejectedTwiceKeeps(t, p, error, o, accepting);
      } else {
        BroadcastReaches(t, o.subscribers[channel], MessageFrame(subId, p.messageID, channel, f.body));
      }
    }
  }

  lemma ConnectedKeeps(t: Tables, login: string, passcode: Option<string>, id: int, accepting: bool)
    requires TablesInv(t, accepting) && 0 <= id < t.counter
    ensures var (t', r) := Connected(t, login, passcode, id);
            && TablesInv(t', accepting)
            && t' == t.(users := t'.users, loggedIn := t'.loggedIn)
            && (r == Ok(false) ==> t' == t)
  {
  }

  lemma OnConnectKeeps(t: Tables, p: Proto, f: Frame, o: Orders, accepting: bool)
    requires OrdersFit(t, o) && TablesInv(t, accepting) && 0 <= p.connectionID < t.counter
    ensures EffectKeeps(t, p, OnConnect(t, p, f, o), accepting)
  {
    hide TablesInv, Rejected, OrdersFit, Connected;
    if Header(f, "login").Some? {
      if Header(f, "login").value in t.loggedIn {
        RejectedKeeps(t, p, ErrorFrame(map["message" := "User is already connected"]), o, accepting);
      } else {
        RejectedTwiceKeeps(t, p, ErrorFrame(map["message" := "Wrong password"]), o, accepting);
        ConnectedKeeps(t, Header(f, "login").value, Header(f, "passcode"), p.connectionID, accepting);
        var t' := Connected(t, Header(f, "login").value, Header(f, "passcode"), p.connectionID).0;
        AnswerKeeps(t', p, CONNECTED, accepting);
      }
    }
  }

  lemma OnDisconnectKeeps(t: Tables, p: Proto, f: Frame, o: Orders, accepting: bool)
    requires OrdersFit(t, o) && TablesInv(t, accepting) && 0 <= p.connectionID < t.counter
    ensures EffectKeeps(t, p, OnDisconnect(t, p, f, o), accepting)
  {
    var e := Answer(t, p, ReceiptFrame(Header(f, "receipt")));
    assert TablesInv(e.tables, accepting);
    DisconnectedKeeps(e.tables, p.connectionID, o, accepting);
  }

  lemma HandledKeeps(t: Tables, p: Proto, f: Frame, o: Orders, accepting: bool)
    requires OrdersFit(t, o) && TablesInv(t, accepting) && 0 <= p.connectionID < t.counter
    ensures EffectKeeps(t, p, Handled(t, p, f, o), accepting)
  {
    hide OnConnect, OnUnsubscribe, OnSubscribe, OnSend, OnDisconnect, TablesInv, OrdersFit;
    var p' := p.(shouldTerminate := f.command == "DISCONNECT");
    OnConnectKeeps(t, p', f, o, accepting);
    OnUnsubscribeKeeps(t, p', f, o, accepting);
    OnSubscribeKeeps(t, p', f, o, accepting);
    OnSendKeeps(t, p', f, o, accepting);
    OnDisconnectKeeps(t, p', f, o, accepting);
  }

  lemma ProcessKeeps(t: Tables, p: Proto, message: string, o: Orders, accepting: bool)
    requires OrdersFit(t, o) && TablesInv(t, accepting) && 0 <= p.connectionID < t.counter
    ensures EffectKeeps(t, p, Processed(t, p, message, o), accepting)
  {
    hide Handled, TablesInv, OrdersFit, JavaParse;
    if JavaParse(message).Ok? {
      HandledKeeps(t, p, JavaParse(message).value, o, accepting);
    }
  }

  lemma StepKeeps(w: World, s: Step)
    requires Inv(w)
    ensures Inv(Apply(w, s))
  {
    if Enabled(w, s) {
      if s.Process? {
        ProcessKeeps(w.tables, w.protos[s.conn].(connectionID := s.conn), s.message, s.orders, w.accepting);
      } else {
        var t, t' := w.tables, Apply(w, s).tables;
        forall ch, h | ch in t'.channels && h in t'.channels[ch]
          ensures Known(h, t'.counter)
        {
          assert Known(h, t.counter);
        }
      }
    }
  }

  lemma {:induction false} RunKeeps(steps: seq<Step>, n: nat)
    requires n <= |steps|
    ensures Inv(At(steps, n))
  {
    if n > 0 {
      RunKeeps(steps, n - 1);
      StepKeeps(At(steps, n - 1), steps[n - 1]);
    }
  }
}
