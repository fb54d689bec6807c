/** When the text of a MESSAGE is read as a report, and as which, in terms of its
    lines. */
module ReportReading {
  import opened Text
  import opened Splitter
  import opened StompFrames
  import opened Decimal
  import opened Reports
  import opened ReportPath

  // ----- Trimming -----

  predicate AllBlank(s: string) {
    forall k | 0 <= k < |s| :: Blank(s[k])
  }

  predicate NoOuterBlank(s: string) {
    s != "" ==> !Blank(s[0]) && !Blank(s[|s| - 1])
  }

  lemma {:induction false} TrimLeftIs(s: string) returns (a: string)
    ensures s == a + TrimLeft(s) && AllBlank(a)
    ensures TrimLeft(s) != "" ==> !Blank(TrimLeft(s)[0])
    decreases |s|
  {
    if s != "" && Blank(s[0]) {
      a := TrimLeftIs(s[1..]);
      a := [s[0]] + a;
    } else {
      a := "";
    }
  }

  lemma {:induction false} TrimRightIs(s: string) returns (b: string)
    ensures s == TrimRight(s) + b && AllBlank(b)
    ensures TrimRight(s) != "" ==> !Blank(TrimRight(s)[|TrimRight(s)| - 1])
    decreases |s|
  {
    if s != "" && Blank(s[|s| - 1]) {
      b := TrimRightIs(s[..|s| - 1]);
      b := b + [s[|s| - 1]];
    } else {
      b := "";
    }
  }

  /** A line is trimmed by taking away blanks in front and behind, as many as
      there are. */
  lemma TrimIs(s: string) returns (a: string, b: string)
    ensures s == a + Trim(s) + b && AllBlank(a) && AllBlank(b) && NoOuterBlank(Trim(s))
  {
    a := TrimLeftIs(s);
    b := TrimRightIs(TrimLeft(s));
    Assoc(a, Trim(s), b);
  }

  // ----- What the lines say -----

  function Trimmed(lines: seq<string>): (t: seq<string>)
    ensures |t| == |lines|
  {
    seq(|lines|, i requires 0 <= i < |lines| => Trim(lines[i]))
  }

  /** The last line under this key. */
  predicate LastUnder(lines: seq<string>, key: string, i: nat) {
    i < |lines| && key <= lines[i] && forall j | i < j < |lines| :: !(key <= lines[j])
  }

  /** What the last line under this key says, or nothing. */
  predicate Says(lines: seq<string>, key: string, v: string) {
    && ((forall i | 0 <= i < |lines| :: !(key <= lines[i])) ==> v == "")
    && (forall i: nat | i < |lines| && LastUnder(lines, key, i) :: v == lines[i][|key|..])
  }

  predicate Unkeyed(line: string) {
    && !("user:" <= line) && !("city:" <= line) && !("event name:" <= line) && !("date time:" <= line)
    && !("active:" <= line) && !("forces_arrival_at_scene:" <= line)
  }

  /** A line without a key, directly behind "description:". */
  predicate Describes(lines: seq<string>, i: nat) {
    0 < i < |lines| && Unkeyed(lines[i]) && lines[i - 1] == "description:"
  }

  /** The last such line, or nothing. */
  predicate SaysOfIt(lines: seq<string>, v: string) {
    && ((forall i: nat | i < |lines| :: !Describes(lines, i)) ==> v == "")
    && (forall i: nat | i < |lines| && Describes(lines, i)
          && (forall j: nat | i < j < |lines| :: !Describes(lines, j)) ::
          v == lines[i])
  }

  lemma SaysNext(lines: seq<string>, key: string, v: string, t: string)
    requires Says(lines, key, v)
    ensures Says(lines + [t], key, if key <= t then t[|key|..] else v)
  {
    var all, n := lines + [t], |lines|;
    assert all[n] == t && forall i | 0 <= i < n :: all[i] == lines[i];
    forall i: nat | i < |all| && LastUnder(all, key, i)
      ensures (if key <= t then t[|key|..] else v) == all[i][|key|..]
    {
      if i < n {
        assert !(key <= all[n]);
        assert forall j | i < j < n :: !(key <= all[j]);
        assert LastUnder(lines, key, i);
      }
    }
  }

  lemma SaysOfItNext(lines: seq<string>, v: string, t: string)
    requires SaysOfIt(lines, v)
    ensures var behind := lines != [] && lines[|lines| - 1] == "description:" && Unkeyed(t);
            SaysOfIt(lines + [t], if behind then t else v)
  {
    hide *;
    DescribesNext(lines, t);
    if Describes(lines + [t], |lines|) {
      DescribedLast(lines, t);
    } else {
      DescribedBefore(lines, v, t);
    }
  }

  lemma DescribedLast(lines: seq<string>, t: string)
    requires Describes(lines + [t], |lines|)
    ensures SaysOfIt(lines + [t], t)
  {
    hide Describes;
    var all, n := lines + [t], |lines|;
    assert all[n] == t;
    forall i: nat | i < |all| && Describes(all, i) && (forall j: nat | i < j < |all| :: !Describes(all, j))
      ensures t == all[i]
    {
      assert i == n;
    }
  }

  lemma DescribedBefore(lines: seq<string>, v: string, t: string)
    requires SaysOfIt(lines, v) && !Describes(lines + [t], |lines|)
    ensures SaysOfIt(lines + [t], v)
  {
    DescribesNext(lines, t);
    hide Describes;
    var all, n := lines + [t], |lines|;
    assert forall i | 0 <= i < n :: all[i] == lines[i];
    if forall i: nat | i < |all| :: !Describes(all, i) {
      assert forall i: nat | i < n :: !Describes(lines, i);
    }
    forall i: nat | i < |all| && Describes(all, i) && (forall j: nat | i < j < |all| :: !Describes(all, j))
      ensures v == all[i]
    {
      assert Describes(lines, i);
      assert forall j: nat | i < j < n :: !Describes(lines, j);
    }
  }

  lemma DescribesNext(lines: seq<string>, t: string)
    ensures forall i: nat | i < |lines| :: Describes(lines + [t], i) <==> Describes(lines, i)
    ensures Describes(lines + [t], |lines|) <==>
            lines != [] && lines[|lines| - 1] == "description:" && Unkeyed(t)
  {
    hide Unkeyed;
    var all, n := lines + [t], |lines|;
    assert all[n] == t && forall i | 0 <= i < n :: all[i] == lines[i];
  }

  /** The draft holds what the lines say. */
  predicate Holds(lines: seq<string>, d: Draft) {
    && Says(lines, "user:", d.user) && Says(lines, "city:", d.city) && Says(lines, "event name:", d.name)
    && Says(lines, "date time:", d.time) && Says(lines, "active:", d.active)
    && Says(lines, "forces_arrival_at_scene:", d.forces) && SaysOfIt(lines, d.description)
    && d.previous == if lines == [] then "" else lines[|lines| - 1]
  }

  lemma KindIs(t: string)
    ensures Kind(t) == User <==> "user:" <= t
    ensures Kind(t) == City <==> "city:" <= t
    ensures Kind(t) == Name <==> "event name:" <= t
    ensures Kind(t) == Time <==> "date time:" <= t
    ensures Kind(t) == Active <==> "active:" <= t
    ensures Kind(t) == Forces <==> "forces_arrival_at_scene:" <= t
    ensures Kind(t) == Other <==> Unkeyed(t)
  {
    FirstLetters(t);
  }

  lemma FirstLetters(t: string)
    ensures "user:" <= t ==> t != "" && t[0] == 'u'
    ensures "city:" <= t ==> t != "" && t[0] == 'c'
    ensures "event name:" <= t ==> t != "" && t[0] == 'e'
    ensures "date time:" <= t ==> t != "" && t[0] == 'd'
    ensures "active:" <= t ==> t != "" && t[0] == 'a'
    ensures "forces_arrival_at_scene:" <= t ==> t != "" && t[0] == 'f'
  {
  }

  lemma ValueBehind(k: string, t: string)
    requires Free(k, ':') && k + ":" <= t
    ensures Value(t) == t[|k| + 1..]
  {
    assert t[|k|] == (k + ":")[|k|] == ':' && forall i | 0 <= i < |k| :: t[i] == (k + ":")[i] == k[i];
    IndexOfUnique(t, ':', |k|);
  }

  lemma ValuesBehind(t: string)
    ensures "user:" <= t ==> Value(t) == t[5..]
    ensures "city:" <= t ==> Value(t) == t[5..]
    ensures "event name:" <= t ==> Value(t) == t[11..]
    ensures "date time:" <= t ==> Value(t) == t[10..]
    ensures "active:" <= t ==> Value(t) == t[7..]
    ensures "forces_arrival_at_scene:" <= t ==> Value(t) == t[24..]
  {
    KeysAreTheirs();
    KeyIsPlain("user");
    KeyIsPlain("city");
    KeyIsPlain("event name");
    KeyIsPlain("date time");
    KeyIsPlain("active");
    KeyIsPlain("forces_arrival_at_scene");
    hide Value, Free;
    if "user:" <= t {
      ValueBehind("user", t);
    }
    if "city:" <= t {
      ValueBehind("city", t);
    }
    if "event name:" <= t {
      ValueBehind("event name", t);
    }
    if "date time:" <= t {
      ValueBehind("date time", t);
    }
    if "active:" <= t {
      ValueBehind("active", t);
    }
    if "forces_arrival_at_scene:" <= t {
      ValueBehind("forces_arrival_at_scene", t);
    }
  }

  lemma KeysAreTheirs()
    ensures "user" + ":" == "user:" && "city" + ":" == "city:" && "event name" + ":" == "event name:"
    ensures "date time" + ":" == "date time:" && "active" + ":" == "active:"
    ensures "forces_arrival_at_scene" + ":" == "forces_arrival_at_scene:"
  {
  }

  lemma HoldsNext(lines: seq<string>, d: Draft, line: string)
    requires Holds(lines, d)
    ensures Holds(lines + [Trim(line)], ReadLine(d, line))
  {
    hide Kind, Says, SaysOfIt, Value, Unkeyed, Trim;
    var t := Trim(line);
    KindIs(t);
    ValuesBehind(t);
    SaysNext(lines, "user:", d.user, t);
    SaysNext(lines, "city:", d.city, t);
    SaysNext(lines, "event name:", d.name, t);
    SaysNext(lines, "date time:", d.time, t);
    SaysNext(lines, "active:", d.active, t);
    SaysNext(lines, "forces_arrival_at_scene:", d.forces, t);
    SaysOfItNext(lines, d.description, t);
    DescriptionIsNotEmpty();
  }

  lemma DescriptionIsNotEmpty()
    ensures "description:" != ""
    ensures |"user:"| == 5 && |"city:"| == 5 && |"event name:"| == 11 && |"date time:"| == 10 && |"active:"| == 7
    ensures |"forces_arrival_at_scene:"| == 24
  {
  }

  lemma StartHolds()
    ensures Holds([], START)
  {
  }

  lemma TrimmedSnoc(lines: seq<string>, line: string)
    ensures Trimmed(lines + [line]) == Trimmed(lines) + [Trim(line)]
  {
    hide Trim;
  }

  lemma {:induction false} DraftHolds(lines: seq<string>)
    ensures Holds(Trimmed(lines), ReadLines(START, lines))
  {
    hide *;
    if lines == [] {
      assert Trimmed(lines) == [];
      StartHolds();
      NothingRead();
    } else {
      var n := |lines| - 1;
      DraftHolds(lines[..n]);
      ReadLinesSnoc(START, lines[..n], lines[n]);
      assert lines[..n] + [lines[n]] == lines;
      HoldsNext(Trimmed(lines[..n]), ReadLines(START, lines[..n]), lines[n]);
      TrimmedSnoc(lines[..n], lines[n]);
    }
  }

  lemma NothingRead()
    ensures ReadLines(START, []) == START
  {
  }

  // ----- What is read -----

  /** The lines of a text, without their outer blanks. */
  function LinesOf(text: string): seq<string> {
    Trimmed(Fields(text, '\n'))
  }

  datatype Said = Said(user: string, city: string, name: string, time: string, description: string,
                       active: string, forces: string)

  predicate LinesSay(lines: seq<string>, p: Said) {
    && Says(lines, "user:", p.user) && Says(lines, "city:", p.city) && Says(lines, "event name:", p.name)
    && Says(lines, "date time:", p.time) && Says(lines, "active:", p.active)
    && Says(lines, "forces_arrival_at_scene:", p.forces) && SaysOfIt(lines, p.description)
  }

  /** What the client makes of a report whose lines say this. */
  predicate IsReading(r: Result<Event, ReportError>, channel: string, p: Said) {
    if p.user == "" || p.city == "" || p.name == "" || p.time == "" || p.description == "" then
      r == Err(MissingFields)
    else
      match Stoi(p.time)
      case Err(InvalidArgument) => r == Err(InvalidTime)
      case Err(_) => r == Err(TimeOutOfRange)
      case Ok(n) =>
        && r.Ok?
        && r.value.channel == channel && r.value.owner == p.user && r.value.city == p.city
        && r.value.name == p.name && r.value.dateTime == n && r.value.description == p.description
        && r.value.info == map["active" := p.active, "forces_arrival_at_scene" := p.forces]
  }

  lemma {:induction false} LastUnderExists(lines: seq<string>, key: string)
    ensures (forall i | 0 <= i < |lines| :: !(key <= lines[i])) || exists i: nat :: LastUnder(lines, key, i)
  {
    if lines != [] {
      var n := |lines| - 1;
      if key <= lines[n] {
        assert LastUnder(lines, key, n);
      } else {
        LastUnderExists(lines[..n], key);
        if i: nat :| LastUnder(lines[..n], key, i) {
          assert LastUnder(lines, key, i);
        }
      }
    }
  }

  lemma SaysOnce(lines: seq<string>, key: string, v: string, w: string)
    requires Says(lines, key, v) && Says(lines, key, w)
    ensures v == w
  {
    LastUnderExists(lines, key);
  }

  lemma {:induction false} LastDescribes(lines: seq<string>, n: nat) returns (i: nat)
    requires n <= |lines|
    ensures (forall j: nat | j < n :: !Describes(lines, j))
            || (i < n && Describes(lines, i) && forall j: nat | i < j < n :: !Describes(lines, j))
  {
    hide Describes;
    i := 0;
    if n > 0 {
      if Describes(lines, n - 1) {
        i := n - 1;
      } else {
        i := LastDescribes(lines, n - 1);
      }
    }
  }

  lemma SaysOfItOnce(lines: seq<string>, v: string, w: string)
    requires SaysOfIt(lines, v) && SaysOfIt(lines, w)
    ensures v == w
  {
    var i := LastDescribes(lines, |lines|);
    hide Describes;
  }

  lemma SayOnce(lines: seq<string>, p: Said, q: Said)
    requires LinesSay(lines, p) && LinesSay(lines, q)
    ensures p == q
  {
    hide Says, SaysOfIt;
    SaysOnce(lines, "user:", p.user, q.user);
    SaysOnce(lines, "city:", p.city, q.city);
    SaysOnce(lines, "event name:", p.name, q.name);
    SaysOnce(lines, "date time:", p.time, q.time);
    SaysOnce(lines, "active:", p.active, q.active);
    SaysOnce(lines, "forces_arrival_at_scene:", p.forces, q.forces);
    SaysOfItOnce(lines, p.description, q.description);
  }

  lemma FinishIsReading(d: Draft, channel: string, p: Said)
    requires p == Said(d.user, d.city, d.name, d.time, d.description, d.active, d.forces)
    ensures IsReading(Finish(d, channel), channel, p)
  {
    hide Stoi;
  }

  /** The client reads a report by the last line of each key and by the last
      line without a key that stands right behind a line "description:". */
  lemma ReportIsRead(body: string, channel: string) returns (p: Said)
    ensures forall q :: LinesSay(LinesOf(body), q) <==> q == p
    ensures IsReading(Finish(ReadLines(START, Fields(body, '\n')), channel), channel, p)
  {
    hide ReadLines, Fields, Trimmed, Finish, IsReading, Says, SaysOfIt;
    var d := ReadLines(START, Fields(body, '\n'));
    DraftHolds(Fields(body, '\n'));
    p := Said(d.user, d.city, d.name, d.time, d.description, d.active, d.forces);
    assert LinesSay(LinesOf(body), p);
    forall q | LinesSay(LinesOf(body), q)
      ensures q == p
    {
      SayOnce(LinesOf(body), p, q);
    }
    FinishIsReading(d, channel, p);
  }

  // ----- The channel -----

  lemma {:induction false} ChannelIsSaid(lines: seq<string>)
    ensures Says(lines, "destination:", ChannelOf("", lines))
  {
    hide *;
    if lines == [] {
      NoChannel();
    } else {
      var n := |lines| - 1;
      ChannelIsSaid(lines[..n]);
      assert lines[..n] + [lines[n]] == lines;
      ChannelOfAppend("", lines[..n], [lines[n]]);
      ChannelOfOne(ChannelOf("", lines[..n]), lines[n]);
      SaysNext(lines[..n], "destination:", ChannelOf("", lines[..n]), lines[n]);
      LengthOfDestination();
    }
  }

  lemma NoChannel()
    ensures Says([], "destination:", ChannelOf("", []))
  {
  }

  lemma LengthOfDestination()
    ensures |"destination:"| == 12 && "destination" + ":" == "destination:" && Free("destination", ':')
    ensures |"destination"| == 11
  {
  }

  lemma ChannelOfOne(found: string, line: string)
    ensures ChannelOf(found, [line]) == if "destination:" <= line then line[12..] else found
  {
    hide Value, Free;
    LengthOfDestination();
    assert [line][1..] == [];
    if "destination:" <= line {
      ValueBehind("destination", line);
    }
  }

  /** A MESSAGE that can be parsed goes to the channel of the last line of the
      whole text that names one, and is not read at all without such a line. */
  lemma MessageIsRead(answer: string) returns (channel: string, p: Said)
    ensures Says(Fields(answer, '\n'), "destination:", channel)
    ensures forall v :: Says(Fields(answer, '\n'), "destination:", v) ==> v == channel
    ensures match CppParse(answer)
            case Err(e) => ReadMessage(answer) == Err(BadFrame(e))
            case Ok(frame) =>
              && (forall q :: LinesSay(LinesOf(frame.body), q) <==> q == p)
              && if channel == "" then ReadMessage(answer) == Err(MissingDestination)
                 else IsReading(ReadMessage(answer), channel, p)
  {
    hide ReadLines, Fields, LinesOf, Finish, IsReading, Says, LinesSay, CppParse, ChannelOf;
    channel := ChannelOf("", Fields(answer, '\n'));
    ChannelIsSaid(Fields(answer, '\n'));
    forall v | Says(Fields(answer, '\n'), "destination:", v)
      ensures v == channel
    {
      SaysOnce(Fields(answer, '\n'), "destination:", v, channel);
    }
    p := ReportIsRead(if CppParse(answer).Ok? then CppParse(answer).value.body else "", channel);
  }
}
