/** The tables that all connections of the server share. */
module ConnectionTables {
  import opened Text
  import opened StompFrames

  /** A reference to a connection handler.  A handler is stored under its own
      number when it is made, so the number stands for it; looking up a number
      that has been removed gives null. */
  datatype Handler = Null | Conn(id: int)

  datatype Exn = NullPointer | NumberFormat | ConcurrentModification | BadFrame

  /** One call of a handler's `send`. */
  datatype Delivery = Delivery(to: int, frame: Frame)

  datatype Tables = Tables(
    active: map<int, Handler>,
    channels: map<string, map<Handler, int>>,
    users: map<string, string>,
    loggedIn: map<string, int>,
    counter: int,                 // the static connectionID: the next number
    closed: set<int>,             // connections whose channel has been closed
    sent: seq<Delivery>)          // all messages handed to handlers so far

  /** The orders in which the hash tables happen to iterate. */
  datatype Orders = Orders(logins: seq<string>, channels: seq<string>, subscribers: map<string, seq<Handler>>)

  predicate OrdersFit(t: Tables, o: Orders) {
    && IsOrder(o.logins, t.loggedIn.Keys)
    && IsOrder(o.channels, t.channels.Keys)
    && (forall ch | ch in t.channels :: ch in o.subscribers && IsOrder(o.subscribers[ch], t.channels[ch].Keys))
  }

  function Lookup(t: Tables, id: int): Handler {
    if id in t.active then t.active[id] else Null
  }

  /** Two boxed ints are the same object exactly when both come from the cache
      of small values. */
  predicate SameBox(a: int, b: int) {
    a == b && -128 <= a <= 127
  }

  // ----- What the operations compute -----

  function Sent(t: Tables, h: Handler, frame: Frame): (Tables, Option<Exn>) {
    match h
    case Null => (t, Some(NullPointer))
    case Conn(id) => (t.(sent := t.sent + [Delivery(id, frame)]), None)
  }

  /** A broadcast stops at a null key. */
  function Broadcast(t: Tables, order: seq<Handler>, frame: Frame): (Tables, Option<Exn>)
    decreases |order|
  {
    if order == [] then (t, None)
    else
      var (t', thrown) := Sent(t, order[0], frame);
      if thrown.Some? then (t', thrown) else Broadcast(t', order[1..], frame)
  }

  /** The first login of this connection is removed. */
  function LoggedOut(loggedIn: map<string, int>, id: int, order: seq<string>): map<string, int>
    decreases |order|
  {
    if order == [] then loggedIn
    else if order[0] in loggedIn && loggedIn[order[0]] == id then loggedIn - {order[0]}
    else LoggedOut(loggedIn, id, order[1..])
  }

  /** Removing from a hash map under its own iteration: the iterator fails
      unless the removed key was the last one. */
  function Dropped(subs: map<Handler, int>, target: Handler, order: seq<Handler>): (map<Handler, int>, Option<Exn>)
    decreases |order|
  {
    if order == [] then (subs, None)
    else if order[0] == target then
      (subs - {target}, if |order| == 1 then None else Some(ConcurrentModification))
    else Dropped(subs, target, order[1..])
  }

  function DroppedFromAll(t: Tables, target: Handler, order: seq<string>, o: Orders): (Tables, Option<Exn>)
    requires forall ch | ch in order :: ch in t.channels && ch in o.subscribers
    decreases |order|
  {
    if order == [] then (t, None)
    else
      var ch := order[0];
      var (subs, thrown) := Dropped(t.channels[ch], target, o.subscribers[ch]);
      var t' := t.(channels := t.channels[ch := subs]);
      if thrown.Some? then (t', thrown) else DroppedFromAll(t', target, order[1..], o)
  }

  /** The handler whose subscriptions are dropped is looked up under the static
      counter, not under the number of the connection that disconnects. */
  function Disconnected(t: Tables, id: int, o: Orders): (Tables, Option<Exn>)
    requires OrdersFit(t, o)
  {
    var t' := t.(loggedIn := LoggedOut(t.loggedIn, id, o.logins));
    DroppedFromAll(t', Lookup(t, t.counter), o.channels, o)
  }

  function Subscribed(t: Tables, channel: string, subId: int, h: Handler): (Tables, bool) {
    if channel in t.channels then
      if h in t.channels[channel] then (t, false)
      else (t.(channels := t.channels[channel := t.channels[channel][h := subId]]), true)
    else (t.(channels := t.channels[channel := map[h := subId]]), true)
  }

  /** The first channel, in iteration order, on which this handler has this
      very box as its subscription number. */
  function Unsubscribed(t: Tables, subId: int, h: Handler, order: seq<string>): (Tables, bool)
    decreases |order|
  {
    if order == [] then (t, false)
    else if order[0] in t.channels && h in t.channels[order[0]] && SameBox(t.channels[order[0]][h], subId) then
      (t.(channels := t.channels[order[0] := t.channels[order[0]] - {h}]), true)
    else Unsubscribed(t, subId, h, order[1..])
  }

  /** A null passcode of a new login is refused by the table. */
  function Connected(t: Tables, login: string, passcode: Option<string>, id: int): (Tables, Result<bool, Exn>) {
    if login in t.users then
      if passcode != Some(t.users[login]) then (t, Ok(false))
      else (t.(loggedIn := t.loggedIn[login := id]), Ok(true))
    else
      match passcode
      case None => (t, Err(NullPointer))
      case Some(p) => (t.(users := t.users[login := p], loggedIn := t.loggedIn[login := id]), Ok(true))
  }

  function UserSubId(t: Tables, channel: string, id: int): int {
    if channel !in t.channels then -1
    else if Lookup(t, id) !in t.channels[channel] then -1
    else t.channels[channel][Lookup(t, id)]
  }

  // ----- The class -----

  class ConnectionsImpl {
    var activeClients: map<int, Handler>
    var channelsSubscriptions: map<string, map<Handler, int>>
    var users: map<string, string>
    var loggedInUsers: map<string, int>
    var connectionID: int
    var closed: set<int>
    var sent: seq<Delivery>

    ghost function Abs(): Tables
      reads this
    {
      Tables(activeClients, channelsSubscriptions, users, loggedInUsers, connectionID, closed, sent)
    }

    constructor ()
      ensures Abs() == Tables(map[], map[], map[], map[], 0, {}, [])
    {
      activeClients, channelsSubscriptions, users, loggedInUsers := map[], map[], map[], map[];
      connectionID, closed, sent := 0, {}, [];
    }

    method HandlerSend(h: Handler, msg: Frame) returns (thrown: Option<Exn>)
      modifies this`sent
      ensures (Abs(), thrown) == Sent(old(Abs()), h, msg)
    {
      match h
      case Null => thrown := Some(NullPointer);
      case Conn(id) => sent := sent + [Delivery(id, msg)]; thrown := None;
    }

    method Send(connectionId: int, msg: Frame) returns (thrown: Option<Exn>)
      modifies this`sent
      ensures (Abs(), thrown) == Sent(old(Abs()), Lookup(old(Abs()), connectionId), msg)
    {
      var h := GetConnection(connectionId);
      thrown := HandlerSend(h, msg);
    }

    method SendToChannel(channel: string, msg: Frame, order: seq<Handler>) returns (thrown: Option<Exn>)
      requires channel in channelsSubscriptions ==> IsOrder(order, channelsSubscriptions[channel].Keys)
      modifies this`sent
      ensures (Abs(), thrown) ==
              if channel in old(channelsSubscriptions) then Broadcast(old(Abs()), order, msg)
              else (old(Abs()), Some(NullPointer))
    {
      if channel !in channelsSubscriptions {
        return Some(NullPointer);
      }
      var i := 0;
      assert order[0..] == order;
      while i < |order|
        invariant 0 <= i <= |order|
        invariant Broadcast(Abs(), order[i..], msg) == Broadcast(old(Abs()), order, msg)
      {
        assert order[i..][0] == order[i] && order[i..][1..] == order[i + 1..];
        thrown := HandlerSend(order[i], msg);
        if thrown.Some? {
          return;
        }
        i := i + 1;
      }
      assert order[i..] == [];
      thrown := None;
    }

    method Disconnect(connectionId: int, o: Orders) returns (thrown: Option<Exn>)
      requires OrdersFit(Abs(), o)
      modifies this`loggedInUsers, this`channelsSubscriptions
      ensures (Abs(), thrown) == Disconnected(old(Abs()), connectionId, o)
    {
      LogOut(connectionId, o.logins);
      var i := 0;
      assert o.channels[0..] == o.channels;
      while i < |o.channels|
        invariant 0 <= i <= |o.channels|
        invariant channelsSubscriptions.Keys == old(channelsSubscriptions).Keys
        invariant activeClients == old(activeClients) && connectionID == old(connectionID)
        invariant DroppedFromAll(Abs(), Lookup(Abs(), connectionID), o.channels[i..], o)
               == Disconnected(old(Abs()), connectionId, o)
      {
        assert o.channels[i..][0] == o.channels[i] && o.channels[i..][1..] == o.channels[i + 1..];
        thrown := DropFrom(o.channels[i], o.subscribers[o.channels[i]]);
        hide Dropped, IsOrder, LoggedOut;
        if thrown.Some? {
          return;
        }
        i := i + 1;
      }
      assert o.channels[i..] == [];
      thrown := None;
    }

    method LogOut(connectionId: int, order: seq<string>)
      modifies this`loggedInUsers
      ensures loggedInUsers == LoggedOut(old(loggedInUsers), connectionId, order)
    {
      var i := 0;
      assert order[0..] == order;
      while i < |order|
        invariant 0 <= i <= |order|
        invariant loggedInUsers == old(loggedInUsers)
        invariant LoggedOut(loggedInUsers, connectionId, order[i..]) == LoggedOut(loggedInUsers, connectionId, order)
      {
        assert order[i..][0] == order[i] && order[i..][1..] == order[i + 1..];
        if order[i] in loggedInUsers && loggedInUsers[order[i]] == connectionId {
          loggedInUsers := loggedInUsers - {order[i]};
          return;
        }
        i := i + 1;
      }
      assert order[i..] == [];
    }

    /** The inner loop of disconnect. */
    method DropFrom(channel: string, order: seq<Handler>) returns (thrown: Option<Exn>)
      requires channel in channelsSubscriptions
      modifies this`channelsSubscriptions
      ensures channel in old(channelsSubscriptions)
      ensures var (subs, exn) := Dropped(old(channelsSubscriptions)[channel], Lookup(Abs(), connectionID), order);
              channelsSubscriptions == old(channelsSubscriptions)[channel := subs] && thrown == exn
    {
      var subs := channelsSubscriptions[channel];
      var i := 0;
      assert order[0..] == order;
      while i < |order|
        invariant 0 <= i <= |order|
        invariant channelsSubscriptions == old(channelsSubscriptions)
        invariant Dropped(subs, Lookup(Abs(), connectionID), order[i..]) ==
                  Dropped(subs, Lookup(Abs(), connectionID), order)
      {
        assert order[i..][0] == order[i] && order[i..][1..] == order[i + 1..];
        var target := GetConnection(connectionID);
        if order[i] == target {
          channelsSubscriptions := channelsSubscriptions[channel := subs - {target}];
          return if i + 1 == |order| then None else Some(ConcurrentModification);
        }
        i := i + 1;
      }
      assert order[i..] == [];
      assert channelsSubscriptions == old(channelsSubscriptions)[channel := subs];
      thrown := None;
    }

    method AddConnection(id: int)
      modifies this`activeClients
      ensures activeClients == old(activeClients)[id := Conn(id)]
    {
      activeClients := activeClients[id := Conn(id)];
    }

    method AddChannelSubscription(channel: string, subscriptionID: int, connection: Handler) returns (done: bool)
      modifies this`channelsSubscriptions
      ensures (Abs(), done) == Subscribed(old(Abs()), channel, subscriptionID, connection)
    {
      if channel in channelsSubscriptions {
        if connection in channelsSubscriptions[channel] {
          return false;
        }
        var subs := channelsSubscriptions[channel];
        channelsSubscriptions := channelsSubscriptions[channel := subs[connection := subscriptionID]];
        return true;
      } else {
        var newChannel := map[connection := subscriptionID];
        channelsSubscriptions := channelsSubscriptions[channel := newChannel];
        return true;
      }
    }

    method RemoveChannelSubscription(subscriptionID: int, connection: Handler, order: seq<string>)
      returns (done: bool)
      requires IsOrder(order, channelsSubscriptions.Keys)
      modifies this`channelsSubscriptions
      ensures (Abs(), done) == Unsubscribed(old(Abs()), subscriptionID, connection, order)
    {
      var i := 0;
      assert order[0..] == order;
      while i < |order|
        invariant 0 <= i <= |order|
        invariant channelsSubscriptions == old(channelsSubscriptions)
        invariant Unsubscribed(old(Abs()), subscriptionID, connection, order[i..]) ==
                  Unsubscribed(old(Abs()), subscriptionID, connection, order)
      {
        assert order[i..][0] == order[i] && order[i..][1..] == order[i + 1..];
        var channel := order[i];
        if connection in channelsSubscriptions[channel] {
          if SameBox(channelsSubscriptions[channel][connection], subscriptionID) {
            channelsSubscriptions :=
              channelsSubscriptions[channel := channelsSubscriptions[channel] - {connection}];
            return true;
          }
        }
        i := i + 1;
      }
      assert order[i..] == [];
      done := false;
    }

    method UserConnectedAlready(login: string) returns (r: bool)
      ensures r <==> login in loggedInUsers
    {
      r := login in loggedInUsers;
    }

    method ConnectUser(login: string, passcode: Option<string>, id: int) returns (r: Result<bool, Exn>)
      modifies this`users, this`loggedInUsers
      ensures (Abs(), r) == Connected(old(Abs()), login, passcode, id)
    {
      if login in users {
        if passcode != Some(users[login]) {
          return Ok(false);
        } else {
          loggedInUsers := loggedInUsers[login := id];
          return Ok(true);
        }
      } else {
        match passcode {
          case None => return Err(NullPointer);
          case Some(p) =>
            users := users[login := p];
            loggedInUsers := loggedInUsers[login := id];
            return Ok(true);
        }
      }
    }

    method GetUserSubID(channel: string, id: int) returns (subId: int)
      ensures subId == UserSubId(Abs(), channel, id)
    {
      var h := GetConnection(id);
      if channel !in channelsSubscriptions {
        return -1;
      } else if h !in channelsSubscriptions[channel] {
        return -1;
      } else {
        return channelsSubscriptions[channel][h];
      }
    }

    method GetConnection(id: int) returns (h: Handler)
      ensures h == Lookup(Abs(), id)
    {
      h := if id in activeClients then activeClients[id] else Null;
    }

    method RemoveConnection(id: int)
      modifies this`activeClients
      ensures activeClients == old(activeClients) - {id}
    {
      activeClients := activeClients - {id};
    }

    /** getConnection(id).close(), for a connection that is still there. */
    method CloseChannel(id: int)
      modifies this`closed
      ensures closed == old(closed) + {id}
    {
      closed := closed + {id};
    }
  }
}
