/** A report travels from one client through the server to another. */
module ReportPath {
  import opened Text
  import opened Splitter
  import opened StompFrames
  import opened RoundTrips
  import opened Decimal
  import opened Reports

  // ----- The lines of a text -----

  lemma FieldsOfLine(l: string, r: string)
    requires Free(l, '\n')
    ensures Fields(l + ("\n" + r), '\n') == (if l == "" then [] else [l]) + Fields(r, '\n')
  {
    var s := l + ("\n" + r);
    assert s == l + ['\n'] + r;
    IndexOfAfter(l, '\n', r);
    assert s[..|l|] == l && s[|l| + 1..] == r;
  }

  lemma {:induction false} FieldsConcat(a: string, b: string)
    ensures Fields(a + ("\n" + b), '\n') == Fields(a, '\n') + Fields(b, '\n')
    decreases |a|
  {
    if a == "" || IndexOf(a, '\n') == |a| {
      FieldsOfLine(a, b);
    } else {
      var l, r := FirstLine(a);
      var more := r + ("\n" + b);
      FieldsConcat(r, b);
      assert a + ("\n" + b) == l + ("\n" + more);
      FieldsOfLine(l, more);
      FieldsOfLine(l, r);
      Assoc(if l == "" then [] else [l], Fields(r, '\n'), Fields(b, '\n'));
    }
  }

  lemma FieldsOfNorm(s: string)
    ensures Fields(Norm(s), '\n') == Fields(s, '\n')
  {
    FieldsAreTexts(Norm(s));
    FieldsAreTexts(s);
    SplitIsStable(s);
  }

  lemma FieldsOfText(s: string)
    requires Free(s, '\n')
    ensures Fields(s, '\n') == if s == "" then [] else [s]
  {
    IndexOfUnique(s, '\n', |s|);
  }

  function NonEmpty(lines: seq<string>): seq<string> {
    if lines == [] then []
    else (if lines[0] == "" then [] else [lines[0]]) + NonEmpty(lines[1..])
  }

  lemma {:induction false} FieldsOfLines(lines: seq<string>, x: string)
    requires forall l | l in lines :: Free(l, '\n')
    ensures Fields(Unlines(lines) + x, '\n') == NonEmpty(lines) + Fields(x, '\n')
  {
    if lines == [] {
      assert Unlines(lines) + x == x;
      assert NonEmpty(lines) + Fields(x, '\n') == Fields(x, '\n');
    } else {
      var rest := Unlines(lines[1..]) + x;
      FieldsOfLines(lines[1..], x);
      assert Unlines(lines) + x == lines[0] + ("\n" + rest);
      FieldsConcat(lines[0], rest);
      FieldsOfText(lines[0]);
      Assoc(if lines[0] == "" then [] else [lines[0]], NonEmpty(lines[1..]), Fields(x, '\n'));
    }
  }

  /** Each trip through a parser only adds newlines, which the line splitter
      does not see. */
  lemma FieldsOfTrip(body: string)
    ensures Fields(Norm(body + "\n"), '\n') == Fields(body, '\n')
    ensures Fields(Norm(body + "\n") + [NUL], '\n') == Fields(body, '\n') + [[NUL]]
  {
    var z := body + "\n";
    assert z == body + ("\n" + "");
    FieldsConcat(body, "");
    FieldsOfNorm(z);
    NormSnoc(z, NUL);
    FieldsOfNorm(z + [NUL]);
    assert z + [NUL] == body + ("\n" + [NUL]);
    FieldsConcat(body, [NUL]);
    FieldsOfText([NUL]);
  }

  // ----- The channel -----

  lemma {:induction false} ChannelOfAppend(found: string, a: seq<string>, b: seq<string>)
    ensures ChannelOf(found, a + b) == ChannelOf(ChannelOf(found, a), b)
    decreases |a|
  {
    if a == [] {
      assert a + b == b;
    } else {
      assert (a + b)[1..] == a[1..] + b;
      ChannelOfAppend(if "destination:" <= a[0] then Value(a[0]) else found, a[1..], b);
    }
  }

  lemma DestinationLine(k: string, v: string)
    requires Free(k, ':')
    ensures "destination:" <= HeaderLine(k, v) <==> k == "destination"
  {
    var l, d := HeaderLine(k, v), "destination:";
    assert l[|k|] == ':' && l[..|k|] == k && d[11] == ':';
    assert |k| < 11 ==> d[|k|] != ':';
    assert |k| > 11 ==> l[11] == k[11];
    assert |k| == 11 ==> l[..12] == k + ":";
    assert d[..11] == "destination";
    assert d <= l && |k| == 11 ==> k == l[..11] == d[..11];
  }

  lemma {:induction false} ChannelOfHeaders(found: string, m: map<string, string>, order: seq<string>)
    requires forall k | k in order :: k in m && Free(k, ':')
    ensures ChannelOf(found, HeaderLines(m, order)) ==
            if "destination" in order then m["destination"] else found
  {
    if order != [] {
      var n := |order| - 1;
      var k, line := order[n], HeaderLine(order[n], m[order[n]]);
      assert k in order && forall j | j in order[..n] :: j in order;
      ChannelOfHeaders(found, m, order[..n]);
      ChannelOfAppend(found, HeaderLines(m, order[..n]), [line]);
      DestinationLine(k, m[k]);
      KeyValue(k, m[k]);
      assert [line][1..] == [];
      assert order == order[..n] + [k];
    }
  }

  lemma NoDestination(found: string, line: string, i: nat)
    requires i < 12 && (i < |line| ==> line[i] != "destination:"[i])
    ensures ChannelOf(found, [line]) == found
  {
    assert [line][1..] == [];
  }

  // ----- The keys -----

  function KeyKind(k: string): LineKind {
    if k == "user" then User
    else if k == "city" then City
    else if k == "event name" then Name
    else if k == "date time" then Time
    else if k == "active" then Active
    else if k == "forces_arrival_at_scene" then Forces
    else Other
  }

  lemma KeyIsPlain(k: string)
    requires KeyKind(k) != Other
    ensures k != "" && Free(k, ':') && !Blank(k[0])
  {
  }

  lemma KindOfKey(k: string, v: string)
    requires KeyKind(k) != Other
    ensures Kind(HeaderLine(k, v)) == KeyKind(k)
  {
    var l := HeaderLine(k, v);
    assert l[0] == k[0];
    assert l[..|k| + 1] == k + ":";
  }

  lemma {:induction false} TrimRightBehind(p: string, x: string)
    requires p != "" && !Blank(p[|p| - 1])
    ensures TrimRight(p + x) == p + TrimRight(x)
    decreases |x|
  {
    if x == "" {
      assert p + x == p;
    } else if Blank(x[|x| - 1]) {
      assert (p + x)[..|p + x| - 1] == p + x[..|x| - 1];
      TrimRightBehind(p, x[..|x| - 1]);
    }
  }

  function Update(d: Draft, kind: LineKind, v: string, line: string): Draft
    requires kind != Other
  {
    match kind
    case User => d.(user := v, previous := line)
    case City => d.(city := v, previous := line)
    case Name => d.(name := v, previous := line)
    case Time => d.(time := v, previous := line)
    case Active => d.(active := v, previous := line)
    case Forces => d.(forces := v, previous := line)
  }

  /** A line with a key, as printed: the value loses blanks at its end. */
  lemma ReadKeyLine(d: Draft, k: string, v: string)
    requires KeyKind(k) != Other
    ensures var read := Update(d, KeyKind(k), TrimRight(v), HeaderLine(k, TrimRight(v)));
            ReadLine(d, HeaderLine(k, v)) == read && ReadLine(d, "\t" + HeaderLine(k, v)) == read
  {
    KeyIsPlain(k);
    var p := k + [':'];
    assert HeaderLine(k, v)[0] == k[0];
    TrimRightBehind(p, v);
    assert Trim(HeaderLine(k, v)) == HeaderLine(k, TrimRight(v));
    assert ("\t" + HeaderLine(k, v))[1..] == HeaderLine(k, v);
    KindOfKey(k, TrimRight(v));
    KeyValue(k, TrimRight(v));
  }

  // ----- Reading a printed report -----

  lemma {:induction false} ReadLinesAppend(d: Draft, a: seq<string>, b: seq<string>)
    ensures ReadLines(d, a + b) == ReadLines(ReadLines(d, a), b)
    decreases |a|
  {
    if a == [] {
      assert a + b == b;
    } else {
      assert (a + b)[1..] == a[1..] + b;
      ReadLinesAppend(ReadLine(d, a[0]), a[1..], b);
    }
  }

  lemma ReadLinesSnoc(d: Draft, a: seq<string>, l: string)
    ensures ReadLines(d, a + [l]) == ReadLine(ReadLines(d, a), l)
  {
    ReadLinesAppend(d, a, [l]);
    assert [l][1..] == [];
  }

  lemma ReadEight(d: Draft, a: string, b: string, c: string, e: string,
                  f: string, g: string, h: string, i: string)
    ensures ReadLines(d, [a, b, c, e, f, g, h, i]) ==
            ReadLine(ReadLine(ReadLine(ReadLine(ReadLine(ReadLine(ReadLine(ReadLine(d, a), b), c), e), f), g), h), i)
  {
    ReadFour(d, a, b, c, e);
    ReadFour(ReadLines(d, [a, b, c, e]), f, g, h, i);
    ReadLinesAppend(d, [a, b, c, e], [f, g, h, i]);
    assert [a, b, c, e] + [f, g, h, i] == [a, b, c, e, f, g, h, i];
  }

  lemma ReadFour(d: Draft, a: string, b: string, c: string, e: string)
    ensures ReadLines(d, [a, b, c, e]) == ReadLine(ReadLine(ReadLine(ReadLine(d, a), b), c), e)
  {
    assert [] + [a] == [a];
    ReadLinesSnoc(d, [], a);
    assert [a] + [b] == [a, b];
    ReadLinesSnoc(d, [a], b);
    assert [a, b] + [c] == [a, b, c];
    ReadLinesSnoc(d, [a, b], c);
    assert [a, b, c] + [e] == [a, b, c, e];
    ReadLinesSnoc(d, [a, b, c], e);
  }

  function Collected(user: string, e: Event): Draft
    requires Reportable(e)
  {
    Draft(TrimRight(user), TrimRight(e.city), TrimRight(e.name), ToString(e.dateTime), "",
          TrimRight(e.info["active"]), TrimRight(e.info["forces_arrival_at_scene"]), "description:")
  }

  lemma ReadPlainLine(d: Draft, s: string)
    requires s != "" && !Blank(s[0]) && !Blank(s[|s| - 1]) && Kind(s) == Other
    requires d.previous != "description:"
    ensures ReadLine(d, s) == d.(previous := s)
  {
    assert Trim(s) == s;
  }

  lemma TimeIsTrimmed(n: int)
    ensures TrimRight(ToString(n)) == ToString(n)
  {
    var time := ToString(n);
    assert IsDigit(time[|time| - 1]);
  }

  lemma NotPrefix(p: string, s: string, i: nat)
    requires i < |p| && (i < |s| ==> s[i] != p[i])
    ensures !(p <= s)
  {
  }

  /** A text whose first letters are those of no key. */
  lemma KindIsOther(s: string)
    requires s != "" && s[0] !in "uceaf" && (s[0] == 'd' ==> |s| > 1 && s[1] != 'a')
    ensures Kind(s) == Other
  {
    NotPrefix("user:", s, 0);
    NotPrefix("city:", s, 0);
    NotPrefix("event name:", s, 0);
    NotPrefix("active:", s, 0);
    NotPrefix("forces_arrival_at_scene:", s, 0);
    NotPrefix("date time:", s, if s[0] == 'd' then 1 else 0);
  }

  lemma PlainLines()
    ensures Kind("general information:") == Kind("description:") == Kind([NUL]) == Other
  {
    KindIsOther("general information:");
    KindIsOther("description:");
    KindIsOther([NUL]);
  }

  lemma NotDescription(k: string, v: string)
    requires KeyKind(k) != Other
    ensures HeaderLine(k, v) != "description:"
  {
    KindOfKey(k, v);
    PlainLines();
  }

  lemma ReadHeading(user: string, e: Event)
    requires Reportable(e)
    ensures ReadLines(START, Heading(user, e)) == Collected(user, e)
  {
    hide ReadLine, ReadLines, TrimRight, ToString, HeaderLine, Kind;
    var time, active, forces := ToString(e.dateTime), e.info["active"], e.info["forces_arrival_at_scene"];
    ReadEight(START, HeaderLine("user", user), HeaderLine("city", e.city), HeaderLine("event name", e.name),
      HeaderLine("date time", time), "general information:", "\t" + HeaderLine("active", active),
      "\t" + HeaderLine("forces_arrival_at_scene", forces), "description:");
    var d := ReadLine(START, HeaderLine("user", user));
    ReadKeyLine(START, "user", user);
    ReadKeyLine(d, "city", e.city);
    d := ReadLine(d, HeaderLine("city", e.city));
    ReadKeyLine(d, "event name", e.name);
    d := ReadLine(d, HeaderLine("event name", e.name));
    ReadKeyLine(d, "date time", time);
    TimeIsTrimmed(e.dateTime);
    d := ReadLine(d, HeaderLine("date time", time));
    assert d == Draft(TrimRight(user), TrimRight(e.city), TrimRight(e.name), time, "", "", "",
                      HeaderLine("date time", time));
    PlainLines();
    NotDescription("date time", time);
    ReadActive(d, "general information:", active);
    ReadForces(d.(active := TrimRight(active), previous := HeaderLine("active", TrimRight(active))),
      forces, "description:");
  }

  predicate PlainLine(s: string) {
    s != "" && !Blank(s[0]) && !Blank(s[|s| - 1]) && Kind(s) == Other
  }

  lemma ReadActive(d: Draft, g: string, active: string)
    requires PlainLine(g) && d.previous != "description:"
    ensures ReadLine(ReadLine(d, g), "\t" + HeaderLine("active", active)) ==
            d.(active := TrimRight(active), previous := HeaderLine("active", TrimRight(active)))
  {
    ReadPlainLine(d, g);
    ReadKeyLine(d.(previous := g), "active", active);
  }

  lemma ReadForces(d: Draft, forces: string, last: string)
    requires PlainLine(last)
    ensures ReadLine(ReadLine(d, "\t" + HeaderLine("forces_arrival_at_scene", forces)), last) ==
            d.(forces := TrimRight(forces), previous := last)
  {
    ReadKeyLine(d, "forces_arrival_at_scene", forces);
    NotDescription("forces_arrival_at_scene", TrimRight(forces));
    var before := HeaderLine("forces_arrival_at_scene", TrimRight(forces));
    ReadPlainLine(d.(forces := TrimRight(forces), previous := before), last);
  }
}
