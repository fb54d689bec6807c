/** When a report survives its way from keyboard to keyboard. */
module ReportTheorem {
  import opened Text
  import opened Splitter
  import opened StompFrames
  import opened RoundTrips
  import opened Decimal
  import opened Reports
  import opened ReportPath
  import opened ServerProtocol
  import opened ClientSession

  /** The lines the receiver sees behind the heading of a report. */
  function Ending(description: string): seq<string> {
    (if description == "" then [] else [description]) + [[NUL]]
  }

  lemma ReadNul(d: Draft)
    ensures ReadLine(d, [NUL]) ==
            if d.previous == "description:" then d.(description := [NUL], previous := [NUL])
            else d.(previous := [NUL])
  {
    PlainLines();
    assert Trim([NUL]) == [NUL];
  }

  /** A description that is missing, or is the word "description:" itself, is
      replaced by the NUL that follows; one that begins like a field is taken
      for that field; any other is read without its outer blanks. */
  lemma ReadEnding(d: Draft, description: string)
    requires d.previous == "description:" && d.description == ""
    ensures var r, t := ReadLines(d, Ending(description)), Trim(description);
            if description == "" || t == "description:" then
              r == d.(description := [NUL], previous := [NUL])
            else if Kind(t) == Other then
              r == d.(description := t, previous := [NUL])
            else
              r.description == ""
  {
    PlainLines();
    if description == "" {
      ReadLinesSnoc(d, [], [NUL]);
      assert Ending(description) == [] + [[NUL]];
      ReadNul(d);
    } else {
      ReadLinesSnoc(d, [description], [NUL]);
      ReadLinesSnoc(d, [], description);
      assert [] + [description] == [description];
      var t := Trim(description);
      var d1 := ReadLine(d, description);
      assert d1.previous == t;
      ReadNul(d1);
    }
  }

  // ----- The lines of the whole text -----

  predicate PlainFields(user: string, e: Event)
    requires Reportable(e)
  {
    && Plain(user) && Plain(e.city) && Plain(e.name) && Plain(e.description)
    && Plain(e.info["active"]) && Plain(e.info["forces_arrival_at_scene"])
  }

  lemma HeadingPlain(user: string, e: Event)
    requires Reportable(e) && PlainFields(user, e)
    ensures forall l | l in Heading(user, e) :: TextLine(l)
    ensures forall l | l in ReportLines(user, e) :: Free(l, '\n')
  {
    ToStringPlain(e.dateTime);
    NamesOfLines();
    hide ToString, Free;
    LinePlain("user", user);
    LinePlain("city", e.city);
    LinePlain("event name", e.name);
    LinePlain("date time", ToString(e.dateTime));
    LinePlain("active", e.info["active"]);
    LinePlain("forces_arrival_at_scene", e.info["forces_arrival_at_scene"]);
    TabPlain(HeaderLine("active", e.info["active"]));
    TabPlain(HeaderLine("forces_arrival_at_scene", e.info["forces_arrival_at_scene"]));
    hide HeaderLine;
  }

  lemma NamesOfLines()
    ensures TextLine("user") && TextLine("city") && TextLine("event name") && TextLine("date time")
    ensures TextLine("active") && TextLine("forces_arrival_at_scene")
    ensures TextLine("general information:") && TextLine("description:")
  {
  }

  lemma LinePlain(key: string, value: string)
    requires TextLine(key) && Free(value, '\n')
    ensures TextLine(HeaderLine(key, value))
  {
  }

  lemma TabPlain(line: string)
    requires TextLine(line)
    ensures TextLine("\t" + line)
  {
  }

  lemma {:induction false} NonEmptyAll(lines: seq<string>, last: string)
    requires forall l | l in lines :: l != ""
    ensures NonEmpty(lines + [last]) == lines + (if last == "" then [] else [last])
    ensures NonEmpty(lines) == lines
  {
    if lines == [] {
      assert lines + [last] == [last];
      assert [last][1..] == [];
    } else {
      assert lines[0] in lines && forall l | l in lines[1..] :: l in lines;
      NonEmptyAll(lines[1..], last);
      assert (lines + [last])[1..] == lines[1..] + [last];
      assert [lines[0]] + lines[1..] == lines;
    }
  }

  /** The lines of a body after both trips. */
  lemma LinesArrive(user: string, e: Event)
    requires Reportable(e) && PlainFields(user, e)
    ensures var once := Norm(ReportBody(user, e) + "\n");
            && Fields(once, '\n') + [[NUL]] == Heading(user, e) + Ending(e.description)
            && Fields(Norm(once + "\n") + [NUL], '\n') == Heading(user, e) + Ending(e.description)
            && Fields("\n" + (Tail(once) + [NUL]), '\n') == Heading(user, e) + Ending(e.description)
  {
    var body := ReportBody(user, e);
    var once := Norm(body + "\n");
    HeadingPlain(user, e);
    FieldsOfTrip(body);
    FieldsOfTrip(once);
    FieldsOfLines(ReportLines(user, e), "");
    assert Unlines(ReportLines(user, e)) + "" == body;
    assert NonEmpty(ReportLines(user, e)) + [] == NonEmpty(ReportLines(user, e));
    NonEmptyAll(Heading(user, e), e.description);
    var d := if e.description == "" then [] else [e.description];
    Assoc(Heading(user, e), d, [[NUL]]);
    FieldsOfTail(once);
  }

  lemma FieldsOfTail(body: string)
    ensures Fields("\n" + (Tail(body) + [NUL]), '\n') == Fields(body, '\n') + [[NUL]]
  {
    var x := Tail(body) + [NUL];
    FieldsOfLine("", x);
    assert "" + ("\n" + x) == "\n" + x;
    assert [] + Fields(x, '\n') == Fields(x, '\n');
    FieldsOfText([NUL]);
    if body == "" {
      assert x == [NUL];
    } else {
      assert x == body + ("\n" + [NUL]);
      FieldsConcat(body, [NUL]);
    }
  }

  // ----- The channel -----

  lemma {:induction false} ChannelOfOthers(found: string, lines: seq<string>)
    requires forall l | l in lines :: !("destination:" <= l)
    ensures ChannelOf(found, lines) == found
  {
    if lines != [] {
      assert lines[0] in lines && forall l | l in lines[1..] :: l in lines;
      ChannelOfOthers(found, lines[1..]);
    }
  }

  lemma HeadingHasNoDestination(user: string, e: Event)
    requires Reportable(e)
    ensures forall l | l in Heading(user, e) :: !("destination:" <= l)
  {
    var h := Heading(user, e);
    DestinationLine("user", user);
    DestinationLine("city", e.city);
    DestinationLine("event name", e.name);
    DestinationLine("date time", ToString(e.dateTime));
    NotPrefix("destination:", h[4], 0);
    NotPrefix("destination:", h[5], 0);
    NotPrefix("destination:", h[6], 0);
    NotPrefix("destination:", h[7], 3);
  }

  function ChannelSeen(channel: string, description: string): string {
    if "destination:" <= description then Value(description) else channel
  }

  lemma ChannelOfAnswer(f: Frame, order: seq<string>, user: string, e: Event)
    requires Reportable(e) && Printable(f) && IsOrder(order, f.headers.Keys)
    requires f.command == "MESSAGE" && "destination" in f.headers
    ensures ChannelOf("", Head(f, order) + (Heading(user, e) + Ending(e.description))) ==
            ChannelSeen(f.headers["destination"], e.description)
  {
    var channel := f.headers["destination"];
    ChannelOfAppend("", Head(f, order), Heading(user, e) + Ending(e.description));
    ChannelOfAppend("", [f.command], HeaderLines(f.headers, order));
    NoDestination("", f.command, 0);
    ChannelOfHeaders("", f.headers, order);
    ChannelOfAppend(channel, Heading(user, e), Ending(e.description));
    HeadingHasNoDestination(user, e);
    ChannelOfOthers(channel, Heading(user, e));
    ChannelOfEnding(channel, e.description);
  }

  lemma ChannelOfEnding(channel: string, description: string)
    ensures ChannelOf(channel, Ending(description)) == ChannelSeen(channel, description)
  {
    NotPrefix("destination:", [NUL], 0);
    NoDestination(ChannelSeen(channel, description), [NUL], 0);
    if description == "" {
      assert Ending(description) == [[NUL]];
    } else {
      ChannelOfAppend(channel, [description], [[NUL]]);
      assert [description][1..] == [];
    }
  }

  // ----- The whole way -----

  /** What the receiver should hold. */
  function Delivered(user: string, e: Event, channel: string): Event
    requires Reportable(e)
  {
    Event(channel, e.city, e.name, e.dateTime, e.description,
          map["active" := e.info["active"],
              "forces_arrival_at_scene" := e.info["forces_arrival_at_scene"]], user)
  }

  /** No field ends in a blank, the description does not begin with one, the
      required fields are there, and the description does not look like a line
      of the format itself. */
  predicate Clean(user: string, e: Event, channel: string)
    requires Reportable(e)
  {
    && channel != "" && user != "" && e.city != "" && e.name != ""
    && TrimRight(user) == user && TrimRight(e.city) == e.city && TrimRight(e.name) == e.name
    && TrimRight(e.info["active"]) == e.info["active"]
    && TrimRight(e.info["forces_arrival_at_scene"]) == e.info["forces_arrival_at_scene"]
    && e.description != "" && e.description != "description:"
    && Trim(e.description) == e.description && Kind(e.description) == Other
    && ChannelSeen(channel, e.description) == channel
  }

  lemma MessagePrintable(subscription: int, messageId: int, channel: string, body: string)
    requires Free(channel, '\n')
    ensures Printable(MessageFrame(subscription, messageId, channel, body))
  {
    hide ToString;
    ToStringPlain(subscription);
    ToStringPlain(messageId);
  }

  lemma FinishDraft(user: string, e: Event, channel: string)
    requires Reportable(e) && IsInt(e.dateTime) && Free(e.description, NUL)
    ensures var chan := ChannelSeen(channel, e.description);
            var r := if chan == "" then Err(MissingDestination)
                     else Finish(ReadLines(START, Heading(user, e) + Ending(e.description)), chan);
            r == Ok(Delivered(user, e, channel)) <==> Clean(user, e, channel)
  {
    var d := Collected(user, e);
    ReadLinesAppend(START, Heading(user, e), Ending(e.description));
    ReadHeading(user, e);
    ReadEnding(d, e.description);
    ReadBack(e.dateTime);
    ToStringPlain(e.dateTime);
    InfoInjective(d.active, d.forces, e.info["active"], e.info["forces_arrival_at_scene"]);
    assert e.description != [NUL] by {
      assert [NUL][0] == NUL;
    }
  }

  lemma InfoInjective(a: string, f: string, b: string, g: string)
    ensures (map["active" := a, "forces_arrival_at_scene" := f] ==
             map["active" := b, "forces_arrival_at_scene" := g]) <==> (a == b && f == g)
  {
    var m, n := map["active" := a, "forces_arrival_at_scene" := f],
                map["active" := b, "forces_arrival_at_scene" := g];
    assert m["active"] == a && n["active"] == b;
    assert m["forces_arrival_at_scene"] == f && n["forces_arrival_at_scene"] == g;
  }

  /** The report that a client sends, as the next client's reader finds it. */
  lemma ReportArrives(user: string, e: Event, channel: string, subscription: int, messageId: int,
                      order: seq<string>)
    requires Reportable(e) && PlainFields(user, e) && Plain(channel)
    requires IsOrder(order, {"subscription", "message-id", "destination"})
    ensures var atServer := JavaParse(WireText(Send(channel, ReportBody(user, e))));
            && atServer.Ok? && atServer.value.command == "SEND"
            && atServer.value.headers == map["destination" := channel]
            && var message := MessageFrame(subscription, messageId, channel, atServer.value.body);
               ReadMessage(JavaPrint(message, order) + [NUL]) == AtReader(user, e, ChannelSeen(channel, e.description))
  {
    var send := FrameOf(Send(channel, ReportBody(user, e)));
    HeaderOrderIsOrder(Send(channel, ReportBody(user, e)));
    ClientToServer(send, ["destination"]);
    var once := Norm(send.body + "\n");
    var message := MessageFrame(subscription, messageId, channel, once);
    MessagePrintable(subscription, messageId, channel, once);
    assert message.headers.Keys == {"subscription", "message-id", "destination"};
    ServerToClient(message, order);
    LinesArrive(user, e);
    AnswerLines(message, order);
    ChannelOfAnswer(message, order, user, e);
  }

  function AtReader(user: string, e: Event, channel: string): Result<Event, ReportError>
    requires Reportable(e)
  {
    if channel == "" then Err(MissingDestination)
    else Finish(ReadLines(START, Heading(user, e) + Ending(e.description)), channel)
  }

  /** A report arrives unchanged exactly when it is clean, whatever order the
      server's header table iterates in. */
  lemma ReportSurvives(user: string, e: Event, channel: string, subscription: int, messageId: int,
                       order: seq<string>)
    requires Reportable(e) && PlainFields(user, e) && Plain(channel) && IsInt(e.dateTime)
    requires IsOrder(order, {"subscription", "message-id", "destination"})
    ensures var atServer := JavaParse(WireText(Send(channel, ReportBody(user, e))));
            && atServer.Ok? && atServer.value.command == "SEND"
            && atServer.value.headers == map["destination" := channel]
            && var message := MessageFrame(subscription, messageId, channel, atServer.value.body);
               ReadMessage(JavaPrint(message, order) + [NUL]) == Ok(Delivered(user, e, channel))
               <==> Clean(user, e, channel)
  {
    hide JavaParse, WireText, ReadMessage, JavaPrint, Clean, Delivered, Finish, ReadLines, Heading, Ending;
    ReportArrives(user, e, channel, subscription, messageId, order);
    FinishDraft(user, e, channel);
  }

  /** A user, city or name of nothing but blanks, or a description that is
      blank or begins like a keyed line, once trimmed. */
  predicate EndsReader(user: string, e: Event) {
    || TrimRight(user) == "" || TrimRight(e.city) == "" || TrimRight(e.name) == ""
    || (e.description != "" && Trim(e.description) == "")
    || (Trim(e.description) != "description:" && Kind(Trim(e.description)) != Other)
  }

  /** The description that arrives: the NUL behind the body is read in place of
      one that is missing. */
  function DescriptionSeen(description: string): string {
    if description == "" || Trim(description) == "description:" then [NUL] else Trim(description)
  }

  lemma FinishExactly(user: string, e: Event, channel: string)
    requires Reportable(e) && IsInt(e.dateTime) && channel != ""
    ensures AtReader(user, e, channel) ==
            if EndsReader(user, e) then Err(MissingFields)
            else Ok(Event(channel, TrimRight(e.city), TrimRight(e.name), e.dateTime, DescriptionSeen(e.description),
                          map["active" := TrimRight(e.info["active"]),
                              "forces_arrival_at_scene" := TrimRight(e.info["forces_arrival_at_scene"])],
                          TrimRight(user)))
  {
    hide ReadLines, Heading, Ending, Stoi, Kind, TrimRight, TrimLeft, ToString;
    var d := Collected(user, e);
    ReadLinesAppend(START, Heading(user, e), Ending(e.description));
    ReadHeading(user, e);
    ReadEnding(d, e.description);
    ReadBack(e.dateTime);
    ToStringPlain(e.dateTime);
    PlainLines();
    BlankIsOther();
  }

  lemma BlankIsOther()
    ensures Trim("") == "" && Kind("") == Other
  {
  }

  /** What becomes of any report: it reaches no channel, it ends the reader for
      want of a field, or it is read without blanks at the end of its fields. */
  lemma ReportIsReadAs(user: string, e: Event, channel: string, subscription: int, messageId: int,
                       order: seq<string>)
    requires Reportable(e) && PlainFields(user, e) && Plain(channel) && IsInt(e.dateTime)
    requires IsOrder(order, {"subscription", "message-id", "destination"})
    ensures var atServer, seen := JavaParse(WireText(Send(channel, ReportBody(user, e)))),
                                  if "destination:" <= e.description then e.description[12..] else channel;
            && atServer.Ok?
            && var message := MessageFrame(subscription, messageId, channel, atServer.value.body);
               ReadMessage(JavaPrint(message, order) + [NUL]) ==
               if seen == "" then Err(MissingDestination)
               else if EndsReader(user, e) then Err(MissingFields)
               else Ok(Event(seen, TrimRight(e.city), TrimRight(e.name), e.dateTime, DescriptionSeen(e.description),
                             map["active" := TrimRight(e.info["active"]),
                                 "forces_arrival_at_scene" := TrimRight(e.info["forces_arrival_at_scene"])],
                             TrimRight(user)))
  {
    hide *;
    var seen := ChannelSeen(channel, e.description);
    ChannelBehind(channel, e.description);
    ReportArrives(user, e, channel, subscription, messageId, order);
    if seen != "" {
      FinishExactly(user, e, seen);
    } else {
      NoReader(user, e);
    }
  }

  lemma NoReader(user: string, e: Event)
    requires Reportable(e)
    ensures AtReader(user, e, "") == Err(MissingDestination)
  {
  }

  lemma ChannelBehind(channel: string, description: string)
    ensures ChannelSeen(channel, description) ==
            if "destination:" <= description then description[12..] else channel
  {
    if "destination:" <= description {
      assert description[11] == "destination:"[11] == ':';
      assert forall k | 0 <= k < 11 :: description[k] == "destination:"[k] && "destination:"[k] != ':';
      IndexOfUnique(description, ':', 11);
    }
  }

  /** The lines of a printed message, as the client's line splitter sees them. */
  lemma AnswerLines(f: Frame, order: seq<string>)
    requires Printable(f) && IsOrder(order, f.headers.Keys)
    ensures Fields(JavaPrint(f, order) + [NUL], '\n') ==
            Head(f, order) + Fields("\n" + (Tail(f.body) + [NUL]), '\n')
  {
    HeaderLinesRead(f.headers, order);
    var x := "\n" + (Tail(f.body) + [NUL]);
    assert JavaPrint(f, order) + [NUL] == Unlines(Head(f, order)) + x;
    FieldsOfLines(Head(f, order), x);
    NonEmptyAll(Head(f, order), "");
  }
}
