/** Reports through the running server. */
module ReportDelivery {
  import opened Text
  import opened StompFrames
  import opened Decimal
  import opened Reports
  import opened ReportTheorem
  import opened ConnectionTables
  import opened ServerProtocol
  import opened ServerRuns
  import opened BroadcastHistory
  import opened ClientSession

  /** A report that a subscriber sends puts one message into the stream of every
      connection the broadcast reaches, and that connection's client reads the
      very report from it exactly when the report is clean. */
  lemma ReportIsDelivered(w: World, conn: int, o: Orders, user: string, e: Event, channel: string,
                          reader: int, order: seq<string>) returns (message: Frame)
    requires Reportable(e) && PlainFields(user, e) && Plain(channel) && IsInt(e.dateTime)
    requires var s := Process(conn, WireText(Send(channel, ReportBody(user, e))), o);
             Enabled(w, s) && UserSubId(w.tables, channel, conn) != -1
    requires channel in w.tables.channels && reader in Reached(o.subscribers[channel])
    requires IsOrder(order, {"subscription", "message-id", "destination"})
    ensures var s := Process(conn, WireText(Send(channel, ReportBody(user, e))), o);
            && Received(Apply(w, s).tables.sent, reader, channel) == Received(w.tables.sent, reader, channel)
               + [message]
            && IsOrder(order, message.headers.Keys)
            && (ReadMessage(JavaPrint(message, order) + [NUL]) == Ok(Delivered(user, e, channel))
                <==> Clean(user, e, channel))
  {
    hide WireText, ReportBody, ReadMessage, Delivered, Clean, JavaPrint, JavaParse, Apply, UserSubId, Reached,
         Received, IsOrder, OrdersFit, PlainFields, Plain, IsInt;
    var s := Process(conn, WireText(Send(channel, ReportBody(user, e))), o);
    var subId, id := UserSubId(w.tables, channel, conn), w.protos[conn].messageID;
    ReportSurvives(user, e, channel, subId, id, order);
    assert AcceptedOn(w, s) == Some(channel);
    hide AcceptedOn;
    message := MessageFrame(subId, id, channel, JavaParse(s.message).value.body);
    assert message.headers.Keys == {"subscription", "message-id", "destination"};
    StepReceives(w, s, reader, channel);
  }
}
