/** The server's STOMP protocol: what one call of `process` does to the shared
    tables and to the protocol object of its connection. */
module ServerProtocol {
  import opened Text
  import opened StompFrames
  import opened Decimal
  import opened ConnectionTables

  datatype Proto = Proto(shouldTerminate: bool, messageID: int, connectionID: int)

  /** The state after a call, and the exception that left it, if any. */
  datatype Effect = Effect(tables: Tables, proto: Proto, thrown: Option<Exn>)

  function Header(f: Frame, key: string): Option<string> {
    if key in f.headers then Some(f.headers[key]) else None
  }

  /** A missing header is null, and null is printed like this. */
  function Printed(value: Option<string>): string {
    match value
    case None => "null"
    case Some(v) => v
  }

  function HeaderNumber(value: Option<string>): Result<int, NumberError> {
    match value
    case None => Err(NumberError.NumberFormat)
    case Some(v) => ParseInt(v)
  }

  function ErrorFrame(headers: map<string, string>): Frame {
    Frame("ERROR", headers, "")
  }

  function ReceiptFrame(receipt: Option<string>): Frame {
    Frame("RECEIPT", map["receipt-id" := Printed(receipt)], "")
  }

  const CONNECTED := Frame("CONNECTED", map["version" := "1.2"], "")

  function MessageFrame(subId: int, messageId: int, channel: string, body: string): Frame {
    Frame("MESSAGE",
          map["subscription" := ToString(subId), "message-id" := ToString(messageId), "destination" := channel],
          body)
  }

  function Answer(t: Tables, p: Proto, frame: Frame): Effect {
    var (t', thrown) := Sent(t, Lookup(t, p.connectionID), frame);
    Effect(t', p, thrown)
  }

  /** Closing after an ERROR.  A failure in disconnect is swallowed and leaves
      the connection in the table. */
  function Expelled(t: Tables, p: Proto, o: Orders): Effect
    requires OrdersFit(t, o)
  {
    var (t', thrown) := Disconnected(t.(closed := t.closed + {p.connectionID}), p.connectionID, o);
    if thrown.Some? then Effect(t', p, None)
    else Effect(t'.(active := t'.active - {p.connectionID}), p.(shouldTerminate := true), None)
  }

  function Rejected(t: Tables, p: Proto, frame: Frame, o: Orders): Effect
    requires OrdersFit(t, o)
  {
    var e := Answer(t, p, frame);
    if e.thrown.Some? then e else Expelled(e.tables, e.proto, o)
  }

  function OnConnect(t: Tables, p: Proto, f: Frame, o: Orders): Effect
    requires OrdersFit(t, o)
  {
    match Header(f, "login")
    case None => Effect(t, p, Some(NullPointer))
    case Some(login) =>
      if login in t.loggedIn then
        Rejected(t, p, ErrorFrame(map["message" := "User is already connected"]), o)
      else
        var (t', r) := Connected(t, login, Header(f, "passcode"), p.connectionID);
        match r
        case Err(e) => Effect(t', p, Some(e))
        case Ok(true) => Answer(t', p, CONNECTED)
        case Ok(false) =>
          // The frame is sent twice.
          var error := ErrorFrame(map["message" := "Wrong password"]);
          var e := Answer(t', p, error);
          if e.thrown.Some? then e else Rejected(e.tables, e.proto, error, o)
  }

  function OnDisconnect(t: Tables, p: Proto, f: Frame, o: Orders): Effect
    requires OrdersFit(t, o)
  {
    var e := Answer(t, p, ReceiptFrame(Header(f, "receipt")));
    if e.thrown.Some? then e
    else
      var (t', thrown) := Disconnected(e.tables, p.connectionID, o);
      Effect(t', e.proto, thrown)
  }

  function OnUnsubscribe(t: Tables, p: Proto, f: Frame, o: Orders): Effect
    requires OrdersFit(t, o)
  {
    match HeaderNumber(Header(f, "id"))
    case Err(_) => Effect(t, p, Some(Exn.NumberFormat))
    case Ok(subId) =>
      var (t', done) := Unsubscribed(t, subId, Lookup(t, p.connectionID), o.channels);
      if done then Answer(t', p, ReceiptFrame(Header(f, "receipt")))
      else
        Rejected(t, p, ErrorFrame(map[
          "receipt-id" := Printed(Header(f, "receipt")),
          "message" := "The user isn't subscribed with that number: " + Printed(Header(f, "id"))]), o)
  }

  function OnSubscribe(t: Tables, p: Proto, f: Frame, o: Orders): Effect
    requires OrdersFit(t, o)
  {
    match HeaderNumber(Header(f, "id"))
    case Err(_) => Effect(t, p, Some(Exn.NumberFormat))
    case Ok(subId) =>
      match Header(f, "destination")
      case None => Effect(t, p, Some(NullPointer))
      case Some(channel) =>
        var (t', done) := Subscribed(t, channel, subId, Lookup(t, p.connectionID));
        if done then Answer(t', p, ReceiptFrame(Header(f, "receipt")))
        else
          Rejected(t, p, ErrorFrame(map[
            "receipt-id" := Printed(Header(f, "receipt")),
            "message" := "The user already subscribed to channel: " + channel]), o)
  }

  function OnSend(t: Tables, p: Proto, f: Frame, o: Orders): Effect
    requires OrdersFit(t, o)
  {
    match Header(f, "destination")
    case None => Effect(t, p, Some(NullPointer))
    case Some(channel) =>
      var subId := UserSubId(t, channel, p.connectionID);
      if subId == -1 then
        // The frame is sent twice.
        var error := ErrorFrame(map["message" := "The user isn't subscribed to channel: " + channel]);
        var e := Answer(t, p, error);
        if e.thrown.Some? then e else Rejected(e.tables, e.proto, error, o)
      else
        var message := MessageFrame(subId, p.messageID, channel, f.body);
        var (t', thrown) :=
          if channel in t.channels then Broadcast(t, o.subscribers[channel], message)
          else (t, Some(NullPointer));
        Effect(t', p.(messageID := p.messageID + 1), thrown)
  }

  function Handled(t: Tables, p: Proto, f: Frame, o: Orders): Effect
    requires OrdersFit(t, o)
  {
    var p' := p.(shouldTerminate := f.command == "DISCONNECT");
    if f.command == "CONNECT" then OnConnect(t, p', f, o)
    else if f.command == "DISCONNECT" then OnDisconnect(t, p', f, o)
    else if f.command == "UNSUBSCRIBE" then OnUnsubscribe(t, p', f, o)
    else if f.command == "SUBSCRIBE" then OnSubscribe(t, p', f, o)
    else if f.command == "SEND" then OnSend(t, p', f, o)
    else Effect(t, p', None)
  }

  function Processed(t: Tables, p: Proto, message: string, o: Orders): Effect
    requires OrdersFit(t, o)
  {
    match JavaParse(message)
    case Err(_) => Effect(t, p, Some(BadFrame))
    case Ok(frame) => Handled(t, p, frame, o)
  }

  class StompProtocolImpl {
    var shouldTerminate: bool
    var messageID: int
    var connectionID: int
    var activeConnections: ConnectionsImpl

    ghost function Abs(): Proto
      reads this
    {
      Proto(shouldTerminate, messageID, connectionID)
    }

    constructor (connectionId: int, connections: ConnectionsImpl)
      ensures Abs() == Proto(false, 0, connectionId) && activeConnections == connections
    {
      shouldTerminate, messageID := false, 0;
      connectionID, activeConnections := connectionId, connections;
    }

    method Start(connectionId: int, connections: ConnectionsImpl)
      modifies this
      ensures Abs() == old(Abs()).(connectionID := connectionId) && activeConnections == connections
    {
      activeConnections := connections;
      connectionID := connectionId;
    }

    /** close, disconnect and remove, as every ERROR branch does. */
    method Expel(o: Orders)
      requires OrdersFit(activeConnections.Abs(), o)
      modifies this`shouldTerminate, activeConnections
      ensures var e := Expelled(old(activeConnections.Abs()), old(Abs()), o);
              activeConnections.Abs() == e.tables && Abs() == e.proto
    {
      activeConnections.CloseChannel(connectionID);
      var thrown := activeConnections.Disconnect(connectionID, o);
      if thrown.None? {
        activeConnections.RemoveConnection(connectionID);
        shouldTerminate := true;
      }
    }

    method ProcessConnect(frame: Frame, o: Orders) returns (thrown: Option<Exn>)
      requires OrdersFit(activeConnections.Abs(), o)
      modifies this`shouldTerminate, activeConnections
      ensures Effect(activeConnections.Abs(), Abs(), thrown) ==
              OnConnect(old(activeConnections.Abs()), old(Abs()), frame, o)
    {
      if "login" !in frame.headers {
        return Some(NullPointer);
      }
      var login := frame.headers["login"];
      var passcode := if "passcode" in frame.headers then Some(frame.headers["passcode"]) else None;
      var userAlreadyConnected := activeConnections.UserConnectedAlready(login);
      if userAlreadyConnected {
        var output := ErrorFrame(map["message" := "User is already connected"]);
        thrown := activeConnections.Send(connectionID, output);
        if thrown.None? {
          Expel(o);
        }
        return;
      }
      var connected := activeConnections.ConnectUser(login, passcode, connectionID);
      match connected
      case Err(e) => return Some(e);
      case Ok(done) =>
        if done {
          thrown := activeConnections.Send(connectionID, CONNECTED);
        } else {
          var output := ErrorFrame(map["message" := "Wrong password"]);
          thrown := activeConnections.Send(connectionID, output);
          if thrown.Some? {
            return;
          }
          thrown := activeConnections.Send(connectionID, output);
          if thrown.None? {
            Expel(o);
          }
        }
    }

    method ProcessDisconnect(frame: Frame, o: Orders) returns (thrown: Option<Exn>)
      requires OrdersFit(activeConnections.Abs(), o)
      modifies activeConnections
      ensures Effect(activeConnections.Abs(), Abs(), thrown) ==
              OnDisconnect(old(activeConnections.Abs()), old(Abs()), frame, o)
    {
      var receiptID := Header(frame, "receipt");
      thrown := activeConnections.Send(connectionID, ReceiptFrame(receiptID));
      if thrown.Some? {
        return;
      }
      thrown := activeConnections.Disconnect(connectionID, o);
    }

    method ProcessUnsubscribe(frame: Frame, o: Orders) returns (thrown: Option<Exn>)
      requires OrdersFit(activeConnections.Abs(), o)
      modifies this`shouldTerminate, activeConnections
      ensures Effect(activeConnections.Abs(), Abs(), thrown) ==
              OnUnsubscribe(old(activeConnections.Abs()), old(Abs()), frame, o)
    {
      var receiptID, subscriptionID := Header(frame, "receipt"), Header(frame, "id");
      match HeaderNumber(subscriptionID)
      case Err(_) => return Some(Exn.NumberFormat);
      case Ok(subId) =>
        var connection := activeConnections.GetConnection(connectionID);
        var done := activeConnections.RemoveChannelSubscription(subId, connection, o.channels);
        if done {
          thrown := activeConnections.Send(connectionID, ReceiptFrame(receiptID));
        } else {
          Unmoved(old(activeConnections.Abs()), subId, connection, o.channels);
          thrown := activeConnections.Send(connectionID, ErrorFrame(map[
            "receipt-id" := Printed(receiptID),
            "message" := "The user isn't subscribed with that number: " + Printed(subscriptionID)]));
          if thrown.None? {
            Expel(o);
          }
        }
    }

    method ProcessSubscribe(frame: Frame, o: Orders) returns (thrown: Option<Exn>)
      requires OrdersFit(activeConnections.Abs(), o)
      modifies this`shouldTerminate, activeConnections
      ensures Effect(activeConnections.Abs(), Abs(), thrown) ==
              OnSubscribe(old(activeConnections.Abs()), old(Abs()), frame, o)
    {
      var receiptID, subscriptionID := Header(frame, "receipt"), Header(frame, "id");
      match HeaderNumber(subscriptionID)
      case Err(_) => return Some(Exn.NumberFormat);
      case Ok(subId) =>
        if "destination" !in frame.headers {
          return Some(NullPointer);
        }
        var channel := frame.headers["destination"];
        var connection := activeConnections.GetConnection(connectionID);
        var done := activeConnections.AddChannelSubscription(channel, subId, connection);
        if done {
          thrown := activeConnections.Send(connectionID, ReceiptFrame(receiptID));
        } else {
          thrown := activeConnections.Send(connectionID, ErrorFrame(map[
            "receipt-id" := Printed(receiptID),
            "message" := "The user already subscribed to channel: " + channel]));
          if thrown.None? {
            Expel(o);
          }
        }
    }

    method ProcessSend(frame: Frame, o: Orders) returns (thrown: Option<Exn>)
      requires OrdersFit(activeConnections.Abs(), o)
      modifies this`shouldTerminate, this`messageID, activeConnections
      ensures Effect(activeConnections.Abs(), Abs(), thrown) ==
              OnSend(old(activeConnections.Abs()), old(Abs()), frame, o)
    {
      if "destination" !in frame.headers {
        return Some(NullPointer);
      }
      var channel := frame.headers["destination"];
      var subscriptionID := activeConnections.GetUserSubID(channel, connectionID);
      if subscriptionID == -1 {
        var output := ErrorFrame(map["message" := "The user isn't subscribed to channel: " + channel]);
        thrown := activeConnections.Send(connectionID, output);
        if thrown.Some? {
          return;
        }
        thrown := activeConnections.Send(connectionID, output);
        if thrown.None? {
          Expel(o);
        }
      } else {
        var output := MessageFrame(subscriptionID, messageID, channel, frame.body);
        messageID := messageID + 1;
        thrown := activeConnections.SendToChannel(channel, output, o.subscribers[channel]);
      }
    }

    method Process(message: string, o: Orders) returns (thrown: Option<Exn>)
      requires OrdersFit(activeConnections.Abs(), o)
      modifies this`shouldTerminate, this`messageID, activeConnections
      ensures Effect(activeConnections.Abs(), Abs(), thrown) ==
              Processed(old(activeConnections.Abs()), old(Abs()), message, o)
    {
      var parsed := JavaStompFrame(message);
      if parsed.Err? {
        return Some(BadFrame);
      }
      var frame := parsed.value;
      shouldTerminate := frame.command == "DISCONNECT";
      if frame.command == "CONNECT" {
        thrown := ProcessConnect(frame, o);
      } else if frame.command == "DISCONNECT" {
        thrown := ProcessDisconnect(frame, o);
      } else if frame.command == "UNSUBSCRIBE" {
        thrown := ProcessUnsubscribe(frame, o);
      } else if frame.command == "SUBSCRIBE" {
        thrown := ProcessSubscribe(frame, o);
      } else if frame.command == "SEND" {
        thrown := ProcessSend(frame, o);
      } else {
        thrown := None;
      }
    }
  }

  lemma {:induction false} Unmoved(t: Tables, subId: int, h: Handler, order: seq<string>)
    requires !Unsubscribed(t, subId, h, order).1
    ensures Unsubscribed(t, subId, h, order).0 == t
    decreases |order|
  {
    if order != [] && !(order[0] in t.channels && h in t.channels[order[0]]
                        && SameBox(t.channels[order[0]][h], subId)) {
      Unmoved(t, subId, h, order[1..]);
    }
  }
}
