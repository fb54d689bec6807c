/** The report a client prints into a SEND body, and what another client reads
    out of the MESSAGE that the server makes of it. */
module Reports {
  import opened Text
  import opened Splitter
  import opened StompFrames
  import opened Decimal

  datatype Event = Event(channel: string, city: string, name: string, dateTime: int,
                         description: string, info: map<string, string>, owner: string)

  datatype ReportError =
    | BadFrame(why: ParseError)
    | MissingDestination
    | MissingFields
    | InvalidTime
    | TimeOutOfRange

  // ----- Printing -----

  predicate Reportable(e: Event) {
    "active" in e.info && "forces_arrival_at_scene" in e.info
  }

  /** All lines of a report but the text of its description. */
  function Heading(user: string, e: Event): seq<string>
    requires Reportable(e)
  {
    [HeaderLine("user", user),
     HeaderLine("city", e.city),
     HeaderLine("event name", e.name),
     HeaderLine("date time", ToString(e.dateTime)),
     "general information:",
     "\t" + HeaderLine("active", e.info["active"]),
     "\t" + HeaderLine("forces_arrival_at_scene", e.info["forces_arrival_at_scene"]),
     "description:"]
  }

  function ReportLines(user: string, e: Event): seq<string>
    requires Reportable(e)
  {
    Heading(user, e) + [e.description]
  }

  function ReportBody(user: string, e: Event): string
    requires Reportable(e)
  {
    Unlines(ReportLines(user, e))
  }

  /** The body of the loop over the events of a report command.  Nothing is
      sent for an event that lacks one of the two general fields. */
  method PrintReport(user: string, e: Event) returns (report: Option<string>)
    ensures report == if Reportable(e) then Some(ReportBody(user, e)) else None
  {
    ghost var lines: seq<string> := [];
    var body := "";
    body := AppendLine(body, lines, HeaderLine("user", user));
    lines := lines + [HeaderLine("user", user)];
    body := AppendLine(body, lines, HeaderLine("city", e.city));
    lines := lines + [HeaderLine("city", e.city)];
    body := AppendLine(body, lines, HeaderLine("event name", e.name));
    lines := lines + [HeaderLine("event name", e.name)];
    body := AppendLine(body, lines, HeaderLine("date time", ToString(e.dateTime)));
    lines := lines + [HeaderLine("date time", ToString(e.dateTime))];
    body := AppendLine(body, lines, "general information:");
    lines := lines + ["general information:"];
    if "active" !in e.info {
      return None;
    }
    body := AppendLine(body, lines, "\t" + HeaderLine("active", e.info["active"]));
    lines := lines + ["\t" + HeaderLine("active", e.info["active"])];
    if "forces_arrival_at_scene" !in e.info {
      return None;
    }
    body := AppendLine(body, lines, "\t" + HeaderLine("forces_arrival_at_scene", e.info["forces_arrival_at_scene"]));
    lines := lines + ["\t" + HeaderLine("forces_arrival_at_scene", e.info["forces_arrival_at_scene"])];
    body := AppendLine(body, lines, "description:");
    lines := lines + ["description:"];
    EightItems(HeaderLine("user", user), HeaderLine("city", e.city), HeaderLine("event name", e.name),
      HeaderLine("date time", ToString(e.dateTime)), "general information:",
      "\t" + HeaderLine("active", e.info["active"]),
      "\t" + HeaderLine("forces_arrival_at_scene", e.info["forces_arrival_at_scene"]),
      "description:");
    body := AppendLine(body, lines, e.description);
    report := Some(body);
  }

  method AppendLine(body: string, ghost lines: seq<string>, line: string) returns (longer: string)
    requires body == Unlines(lines)
    ensures longer == Unlines(lines + [line])
  {
    UnlinesSnoc(lines, line);
    longer := body + line + "\n";
  }

  lemma EightItems<T>(a: T, b: T, c: T, d: T, e: T, f: T, g: T, h: T)
    ensures [] + [a] + [b] + [c] + [d] + [e] + [f] + [g] + [h] == [a, b, c, d, e, f, g, h]
  {
  }

  // ----- Reading -----

  predicate Blank(c: char) {
    c == ' ' || c == '\t'
  }

  function TrimLeft(s: string): string {
    if s != "" && Blank(s[0]) then TrimLeft(s[1..]) else s
  }

  function TrimRight(s: string): string {
    if s != "" && Blank(s[|s| - 1]) then TrimRight(s[..|s| - 1]) else s
  }

  function Trim(s: string): string {
    TrimRight(TrimLeft(s))
  }

  datatype LineKind = User | City | Name | Time | Active | Forces | Other

  function Kind(t: string): LineKind {
    if "user:" <= t then User
    else if "city:" <= t then City
    else if "event name:" <= t then Name
    else if "date time:" <= t then Time
    else if "active:" <= t then Active
    else if "forces_arrival_at_scene:" <= t then Forces
    else Other
  }

  /** The local variables of parseEventReport. */
  datatype Draft = Draft(user: string, city: string, name: string, time: string,
                         description: string, active: string, forces: string, previous: string)

  const START := Draft("", "", "", "", "", "", "", "")

  function ReadLine(d: Draft, line: string): Draft {
    var t := Trim(line);
    var v := Value(t);
    match Kind(t)
    case User => d.(user := v, previous := t)
    case City => d.(city := v, previous := t)
    case Name => d.(name := v, previous := t)
    case Time => d.(time := v, previous := t)
    case Active => d.(active := v, previous := t)
    case Forces => d.(forces := v, previous := t)
    case Other =>
      if d.previous == "description:" then d.(description := t, previous := t) else d.(previous := t)
  }

  function ReadLines(d: Draft, lines: seq<string>): Draft
    decreases |lines|
  {
    if lines == [] then d else ReadLines(ReadLine(d, lines[0]), lines[1..])
  }

  function Finish(d: Draft, channel: string): Result<Event, ReportError> {
    if d.user == "" || d.city == "" || d.name == "" || d.time == "" || d.description == "" then
      Err(MissingFields)
    else
      match Stoi(d.time)
      case Err(InvalidArgument) => Err(InvalidTime)
      case Err(_) => Err(TimeOutOfRange)
      case Ok(n) =>
        Ok(Event(channel, d.city, d.name, n, d.description,
                 map["active" := d.active, "forces_arrival_at_scene" := d.forces], d.user))
  }

  method ParseLine(before: Draft, line: string) returns (d: Draft)
    ensures d == ReadLine(before, line)
  {
    d := before;
    var trimmedLine := Trim(line);
    var value := Value(trimmedLine);
    if "user:" <= trimmedLine {
      d := d.(user := value);
    } else if "city:" <= trimmedLine {
      d := d.(city := value);
    } else if "event name:" <= trimmedLine {
      d := d.(name := value);
    } else if "date time:" <= trimmedLine {
      d := d.(time := value);
    } else if "active:" <= trimmedLine {
      d := d.(active := value);
    } else if "forces_arrival_at_scene:" <= trimmedLine {
      d := d.(forces := value);
    } else if d.previous == "description:" {
      d := d.(description := trimmedLine);
    }
    d := d.(previous := trimmedLine);
  }

  method ParseEventReport(report: string, channelName: string) returns (r: Result<Event, ReportError>)
    ensures r == Finish(ReadLines(START, Fields(report, '\n')), channelName)
  {
    var parts := ProtocolSplit(report, '\n');
    var d := START;
    var i := 0;
    assert parts[0..] == parts;
    while i < |parts|
      invariant 0 <= i <= |parts|
      invariant ReadLines(START, parts) == ReadLines(d, parts[i..])
    {
      assert parts[i..][0] == parts[i] && parts[i..][1..] == parts[i + 1..];
      d := ParseLine(d, parts[i]);
      i := i + 1;
    }
    assert parts[i..] == [];
    if d.user == "" || d.city == "" || d.name == "" || d.time == "" || d.description == "" {
      return Err(MissingFields);
    }
    match Stoi(d.time)
    case Err(e) => r := if e == InvalidArgument then Err(InvalidTime) else Err(TimeOutOfRange);
    case Ok(dateTime) =>
      var generalInformation := map["active" := d.active, "forces_arrival_at_scene" := d.forces];
      r := Ok(Event(channelName, d.city, d.name, dateTime, d.description, generalInformation, d.user));
  }

  /** The channel of a MESSAGE: the last line of the text that says so. */
  function ChannelOf(found: string, lines: seq<string>): string
    decreases |lines|
  {
    if lines == [] then found
    else ChannelOf(if "destination:" <= lines[0] then Value(lines[0]) else found, lines[1..])
  }

  /** What the client makes of the text of a MESSAGE. */
  function ReadMessage(answer: string): Result<Event, ReportError> {
    match CppParse(answer)
    case Err(e) => Err(BadFrame(e))
    case Ok(frame) =>
      var channel := ChannelOf("", Fields(answer, '\n'));
      if channel == "" then Err(MissingDestination)
      else Finish(ReadLines(START, Fields(frame.body, '\n')), channel)
  }

  /** The MESSAGE branch of server_response_process. */
  method OnMessage(answer: string) returns (r: Result<Event, ReportError>)
    ensures r == ReadMessage(answer)
  {
    var frame := CppStompFrame(answer);
    if frame.Err? {
      return Err(BadFrame(frame.error));
    }
    var input := ProtocolSplit(answer, '\n');
    var channelName := "";
    var i := 0;
    assert input[0..] == input;
    while i < |input|
      invariant 0 <= i <= |input|
      invariant ChannelOf("", input) == ChannelOf(channelName, input[i..])
    {
      assert input[i..][0] == input[i] && input[i..][1..] == input[i + 1..];
      if "destination:" <= input[i] {
        channelName := Value(input[i]);
      }
      i := i + 1;
    }
    assert input[i..] == [];
    if channelName != "" {
      r := ParseEventReport(frame.value.body, channelName);
    } else {
      r := Err(MissingDestination);
    }
  }
}
