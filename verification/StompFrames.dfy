/** The StompFrame classes of the Java server and the C++ client: two printers
    and two parsers that have to understand each other. */
module StompFrames {
  import opened Text
  import opened Splitter

  datatype Frame = Frame(command: string, headers: map<string, string>, body: string)

  datatype ParseError =
    | IndexOutOfBounds        // Java: get(0) on an empty list
    | StringIndexOutOfBounds  // Java: substring(0, -1) on a line without ':'
    | OutOfRange              // C++: vector::at past the end

  // ----- Reading the tokens -----

  /** Two separators with a token behind them: the body begins at `i + 2`. */
  predicate BlankAt(t: seq<Token>, i: nat) {
    i + 2 < |t| && t[i].Newline? && t[i + 1].Newline?
  }

  /** The first blank line at or after `i` that has a token behind it. */
  function BodyMark(t: seq<Token>, i: nat): (b: nat)
    requires i <= |t|
    ensures i <= b <= |t|
    ensures b < |t| ==> BlankAt(t, b)
    decreases |t| - i
  {
    if i == |t| || BlankAt(t, i) then i else BodyMark(t, i + 1)
  }

  function BodyOf(t: seq<Token>, b: nat): string {
    if b + 2 <= |t| then Spell(t[b + 2..]) else ""
  }

  function Key(line: string): string {
    line[..IndexOf(line, ':')]
  }

  /** Without a colon, `find` yields npos: key and value are the whole line. */
  function Value(line: string): string {
    var i := IndexOf(line, ':');
    if i == |line| then line else line[i + 1..]
  }

  /** A line is cut at its first colon. */
  lemma CutAtColon(line: string)
    ensures Free(Key(line), ':')
    ensures if Free(line, ':') then Key(line) == Value(line) == line else line == Key(line) + ":" + Value(line)
  {
  }

  /** Map::put. */
  function Put(m: map<string, string>, line: string): map<string, string> {
    m[Key(line) := Value(line)]
  }

  /** map::insert. */
  function Insert(m: map<string, string>, line: string): map<string, string> {
    if Key(line) in m then m else m[Key(line) := Value(line)]
  }

  /** Java: a repeated header keeps its last value. */
  function LastWins(lines: seq<string>): map<string, string> {
    if lines == [] then map[]
    else Put(LastWins(lines[..|lines| - 1]), lines[|lines| - 1])
  }

  /** C++: a repeated header keeps its first value. */
  function FirstWins(lines: seq<string>): map<string, string> {
    if lines == [] then map[]
    else Insert(FirstWins(lines[..|lines| - 1]), lines[|lines| - 1])
  }

  predicate NoColon(line: string) {
    IndexOf(line, ':') == |line|
  }

  /** Some line has no colon. */
  predicate Colonless(lines: seq<string>) {
    lines != [] && (NoColon(lines[|lines| - 1]) || Colonless(lines[..|lines| - 1]))
  }

  /** The header loop of the Java constructor from index `i` on: the headers,
      and where the body was found. */
  function JavaScan(t: seq<Token>, i: nat, m: map<string, string>)
    : Result<(map<string, string>, nat), ParseError>
    requires i <= |t|
    decreases |t| - i
  {
    if i == |t| || BlankAt(t, i) then Ok((m, i))
    else
      match t[i]
      case Newline => JavaScan(t, i + 1, m)
      case Line(line) =>
        if NoColon(line) then Err(StringIndexOutOfBounds) else JavaScan(t, i + 1, Put(m, line))
  }

  function JavaParse(s: string): Result<Frame, ParseError> {
    var t := Tokens(s, '\n');
    if t == [] then Err(IndexOutOfBounds)
    else
      match JavaScan(t, 1, map[])
      case Err(e) => Err(e)
      case Ok((m, b)) => Ok(Frame(SpellOne(t[0]), m, if b < |t| then BodyOf(t, b) else ""))
  }

  /** The same loop of the C++ constructor. */
  function CppScan(t: seq<Token>, i: nat, m: map<string, string>)
    : Result<(map<string, string>, nat), ParseError>
    requires i <= |t|
    decreases |t| - i
  {
    if i == |t| then Ok((m, i))
    else
      match t[i]
      case Line(line) => CppScan(t, i + 1, Insert(m, line))
      case Newline =>
        if i + 1 == |t| then Err(OutOfRange)
        else if t[i + 1].Line? then CppScan(t, i + 1, m)
        else if i + 2 == |t| then Err(OutOfRange)
        else Ok((m, i))
  }

  function CppParse(s: string): Result<Frame, ParseError> {
    var t := Tokens(s, '\n');
    if t == [] then Err(OutOfRange)
    else
      match CppScan(t, 1, map[])
      case Err(e) => Err(e)
      case Ok((m, b)) => Ok(Frame(SpellOne(t[0]), m, if b < |t| then BodyOf(t, b) else ""))
  }

  lemma SpellNext(t: seq<Token>, a: nat, i: nat)
    requires a <= i < |t|
    ensures Spell(t[a..i + 1]) == Spell(t[a..i]) + SpellOne(t[i])
  {
    assert t[a..i + 1] == t[a..i] + [t[i]];
    SpellAppend(t[a..i], [t[i]]);
    assert [t[i]][1..] == [];
  }

  /** The tail of both constructors: the body is spelled out again. */
  method JoinBody(frameLines: seq<Token>, hasBody: bool, bodyIndex: nat) returns (body: string)
    requires hasBody ==> bodyIndex <= |frameLines|
    ensures body == if hasBody then Spell(frameLines[bodyIndex..]) else ""
  {
    body := "";
    if hasBody {
      var i := bodyIndex;
      while i < |frameLines|
        invariant bodyIndex <= i <= |frameLines|
        invariant body == Spell(frameLines[bodyIndex..i])
      {
        SpellNext(frameLines, bodyIndex, i);
        body := body + SpellOne(frameLines[i]);
        i := i + 1;
      }
      assert frameLines[bodyIndex..i] == frameLines[bodyIndex..];
    }
  }

  /** The Java constructor that parses a frame. */
  method JavaStompFrame(frame: string) returns (r: Result<Frame, ParseError>)
    ensures r == JavaParse(frame)
  {
    var headers: map<string, string> := map[];
    var frameLines := Split(frame, '\n');
    if |frameLines| == 0 {
      return Err(IndexOutOfBounds);
    }
    var hasBody := false;
    var bodyIndex := 0;
    var i := 1;
    while i < |frameLines|
      invariant 1 <= i <= |frameLines| && !hasBody
      invariant JavaScan(frameLines, 1, map[]) == JavaScan(frameLines, i, headers)
    {
      if i < |frameLines| - 2 {
        // The third test of the source compares a built string with the
        // literal "\0" by identity, so it never fails.
        if frameLines[i].Newline? && frameLines[i + 1].Newline? {
          hasBody := true;
          bodyIndex := i + 2;
          break;
        }
      }
      if frameLines[i].Line? {
        var line := frameLines[i].text;
        var index := IndexOf(line, ':');
        if index == |line| {
          return Err(StringIndexOutOfBounds);
        }
        var header := line[..index];
        var value := line[index + 1..];
        headers := headers[header := value];
      }
      i := i + 1;
    }
    var body := JoinBody(frameLines, hasBody, bodyIndex);
    r := Ok(Frame(SpellOne(frameLines[0]), headers, body));
  }

  /** The C++ constructor that parses a frame. */
  method CppStompFrame(frame: string) returns (r: Result<Frame, ParseError>)
    ensures r == CppParse(frame)
  {
    var headers: map<string, string> := map[];
    var frameLines := Split(frame, '\n');
    if |frameLines| == 0 {
      return Err(OutOfRange);
    }
    var hasBody := false;
    var bodyIndex := 0;
    var i := 1;
    while i < |frameLines|
      invariant 1 <= i <= |frameLines| && !hasBody
      invariant CppScan(frameLines, 1, map[]) == CppScan(frameLines, i, headers)
    {
      if frameLines[i].Newline? {
        if i + 1 >= |frameLines| {
          return Err(OutOfRange);
        }
        if frameLines[i + 1].Newline? {
          if i + 2 >= |frameLines| {
            return Err(OutOfRange);
          }
          // The literal "\0" is the empty string here, and no token is empty.
          hasBody := true;
          bodyIndex := i + 2;
          break;
        }
      }
      if frameLines[i].Line? {
        var line := frameLines[i].text;
        var index := IndexOf(line, ':');
        var header := line[..index];
        var value := if index == |line| then line else line[index + 1..];
        if header !in headers {
          headers := headers[header := value];
        }
      }
      i := i + 1;
    }
    var body := JoinBody(frameLines, hasBody, bodyIndex);
    r := Ok(Frame(SpellOne(frameLines[0]), headers, body));
  }

  // ----- What the parsers compute -----

  lemma NextLine(lines: seq<string>, l: string)
    ensures LastWins(lines + [l]) == Put(LastWins(lines), l)
    ensures FirstWins(lines + [l]) == Insert(FirstWins(lines), l)
    ensures Colonless(lines + [l]) <==> NoColon(l) || Colonless(lines)
  {
    assert (lines + [l])[..|lines|] == lines;
  }

  lemma TextsNext(t: seq<Token>, i: nat)
    requires 1 <= i < |t|
    ensures Texts(t[1..i + 1]) == Texts(t[1..i]) + TextOf(t[i])
  {
    assert t[1..i + 1] == t[1..i] + [t[i]];
    TextsAppend(t[1..i], [t[i]]);
    assert [t[i]][1..] == [];
    assert Texts([t[i]]) == TextOf(t[i]);
  }

  lemma {:induction false} ColonlessAppend(a: seq<string>, b: seq<string>)
    requires Colonless(a)
    ensures Colonless(a + b)
  {
    if b == [] {
      assert a + b == a;
    } else {
      var n := |b| - 1;
      ColonlessAppend(a, b[..n]);
      assert (a + b)[..|a + b| - 1] == a + b[..n];
    }
  }

  lemma ColonMissing(t: seq<Token>, i: nat)
    requires 1 <= i < |t| && Colonless(Texts(t[1..i + 1]))
    requires BodyMark(t, 1) == BodyMark(t, i + 1)
    ensures Colonless(Texts(t[1..BodyMark(t, 1)]))
  {
    var b := BodyMark(t, i + 1);
    var now, later := t[1..i + 1], t[i + 1..b];
    assert t[1..b] == now + later;
    TextsAppend(now, later);
    ColonlessAppend(Texts(now), Texts(later));
  }

  lemma MarkNext(t: seq<Token>, i: nat)
    requires i <= |t|
    ensures BodyMark(t, i) == if i == |t| || BlankAt(t, i) then i else BodyMark(t, i + 1)
  {
  }

  lemma {:induction false} JavaScanMeans(t: seq<Token>, i: nat, lines: seq<string>)
    requires 1 <= i <= |t| && lines == Texts(t[1..i]) && !Colonless(lines)
    requires BodyMark(t, 1) == BodyMark(t, i)
    ensures var b := BodyMark(t, 1);
            JavaScan(t, i, LastWins(lines)) ==
            if Colonless(Texts(t[1..b])) then Err(StringIndexOutOfBounds)
            else Ok((LastWins(Texts(t[1..b])), b))
    decreases |t| - i
  {
    hide Colonless, LastWins, Texts, NoColon, BodyMark, Put;
    MarkNext(t, i);
    if i < |t| && !BlankAt(t, i) {
      TextsNext(t, i);
      match t[i] {
        case Newline =>
          assert lines + [] == lines;
          JavaScanMeans(t, i + 1, lines);
        case Line(line) =>
          NextLine(lines, line);
          if NoColon(line) {
            ColonMissing(t, i);
          } else {
            JavaScanMeans(t, i + 1, lines + [line]);
          }
      }
    }
  }

  /** The server splits a text at its first blank line with something behind
      it.  It fails on an empty text and on a header line without a colon;
      otherwise the headers keep last values and the body is spelled out. */
  lemma JavaParseMeans(s: string)
    ensures var t := Tokens(s, '\n');
            if t == [] then JavaParse(s) == Err(IndexOutOfBounds)
            else
              var b := BodyMark(t, 1);
              var lines := Texts(t[1..b]);
              JavaParse(s) ==
              if Colonless(lines) then Err(StringIndexOutOfBounds)
              else Ok(Frame(SpellOne(t[0]), LastWins(lines), if b < |t| then BodyOf(t, b) else ""))
  {
    var t := Tokens(s, '\n');
    if t != [] {
      JavaScanMeans(t, 1, []);
    }
  }

  lemma {:induction false} CppScanMeans(t: seq<Token>, i: nat, lines: seq<string>)
    requires 1 <= i <= |t| && lines == Texts(t[1..i])
    requires i == |t| ==> t[i - 1].Line?
    requires BodyMark(t, 1) == BodyMark(t, i)
    ensures var b := BodyMark(t, 1);
            CppScan(t, i, FirstWins(lines)) ==
            if b == |t| && t[b - 1].Newline? then Err(OutOfRange)
            else Ok((FirstWins(Texts(t[1..b])), b))
    decreases |t| - i
  {
    if i == |t| || BlankAt(t, i) {
    } else {
      assert BodyMark(t, i) == BodyMark(t, i + 1);
      TextsNext(t, i);
      match t[i] {
        case Newline =>
          assert lines + [] == lines;
          if i + 1 == |t| {
          } else if t[i + 1].Newline? {
            assert i + 2 == |t| && !BlankAt(t, i + 1);
            assert BodyMark(t, i + 1) == BodyMark(t, i + 2) == |t|;
          } else {
            CppScanMeans(t, i + 1, lines);
          }
        case Line(line) =>
          NextLine(lines, line);
          CppScanMeans(t, i + 1, lines + [line]);
      }
    }
  }

  /** The client splits at the same place and keeps first values.  It fails on
      an empty text, and when the text ends in a line end before any body. */
  lemma CppParseMeans(s: string)
    ensures var t := Tokens(s, '\n');
            if t == [] then CppParse(s) == Err(OutOfRange)
            else
              var b := BodyMark(t, 1);
              CppParse(s) ==
              if b == |t| && t[|t| - 1].Newline? then Err(OutOfRange)
              else Ok(Frame(SpellOne(t[0]), FirstWins(Texts(t[1..b])), if b < |t| then BodyOf(t, b) else ""))
  {
    var t := Tokens(s, '\n');
    if t != [] {
      TokenShapes(s);
      CppScanMeans(t, 1, []);
    }
  }

  // ----- Printing -----

  /** An enumeration of a map's keys.  Java's HashMap iterates in any order and
      the C++ map in key order; nothing below depends on which one it is. */
  predicate IsOrder<T(==)>(order: seq<T>, keys: set<T>) {
    && (forall k | k in order :: k in keys)
    && (forall k | k in keys :: k in order)
    && (forall i, j | 0 <= i < j < |order| :: order[i] != order[j])
  }

  function HeaderLine(key: string, value: string): string {
    key + [':'] + value
  }

  function HeaderLines(m: map<string, string>, order: seq<string>): seq<string>
    requires forall k | k in order :: k in m
  {
    if order == [] then []
    else
      var n := |order| - 1;
      HeaderLines(m, order[..n]) + [HeaderLine(order[n], m[order[n]])]
  }

  function Unlines(lines: seq<string>): string {
    if lines == [] then "" else lines[0] + ("\n" + Unlines(lines[1..]))
  }

  lemma {:induction false} UnlinesSnoc(lines: seq<string>, l: string)
    ensures Unlines(lines + [l]) == Unlines(lines) + l + "\n"
  {
    if lines == [] {
      assert [l][1..] == [];
      assert lines + [l] == [l];
    } else {
      UnlinesSnoc(lines[1..], l);
      assert (lines + [l])[1..] == lines[1..] + [l];
      var rest := Unlines(lines[1..]);
      assert lines[0] + ("\n" + (rest + l + "\n")) == lines[0] + ("\n" + rest) + l + "\n";
    }
  }

  /** Command and headers, each on a line of its own. */
  function Head(f: Frame, order: seq<string>): seq<string>
    requires forall k | k in order :: k in f.headers
  {
    [f.command] + HeaderLines(f.headers, order)
  }

  function Tail(body: string): string {
    if body == "" then "" else body + "\n"
  }

  function JavaPrint(f: Frame, order: seq<string>): string
    requires forall k | k in order :: k in f.headers
  {
    Unlines(Head(f, order)) + ("\n" + Tail(f.body))
  }

  /** The client puts one more empty line in front of the body. */
  function CppPrint(f: Frame, order: seq<string>): string
    requires forall k | k in order :: k in f.headers
  {
    Unlines(Head(f, order)) + ("\n" + ("\n" + Tail(f.body)))
  }

  /** The loop that both printers share. */
  method PrintHead(f: Frame, order: seq<string>) returns (frame: string)
    requires forall k | k in order :: k in f.headers
    ensures frame == Unlines(Head(f, order))
  {
    frame := f.command + "\n";
    var i := 0;
    assert Head(f, order[..0]) == [f.command];
    UnlinesSnoc([], f.command);
    assert [] + [f.command] == [f.command];
    while i < |order|
      invariant 0 <= i <= |order|
      invariant frame == Unlines(Head(f, order[..i]))
    {
      var header := order[i];
      assert order[..i + 1][..i] == order[..i];
      UnlinesSnoc(Head(f, order[..i]), HeaderLine(header, f.headers[header]));
      assert Head(f, order[..i + 1]) == Head(f, order[..i]) + [HeaderLine(header, f.headers[header])];
      frame := frame + (header + ":" + f.headers[header]) + "\n";
      i := i + 1;
    }
    assert order[..i] == order;
  }

  method JavaCreateFrame(f: Frame, order: seq<string>) returns (frame: string)
    requires IsOrder(order, f.headers.Keys)
    ensures frame == JavaPrint(f, order)
  {
    frame := PrintHead(f, order);
    ghost var head := frame;
    frame := frame + "\n";
    if |f.body| > 0 {
      frame := frame + f.body + "\n";
    }
    assert frame == head + ("\n" + Tail(f.body));
  }

  method CppCreateFrame(f: Frame, order: seq<string>) returns (frame: string)
    requires IsOrder(order, f.headers.Keys)
    ensures frame == CppPrint(f, order)
  {
    frame := PrintHead(f, order);
    ghost var head := frame;
    frame := frame + "\n\n";
    if f.body != "" {
      frame := frame + f.body;
      frame := frame + "\n";
    }
    assert frame == head + ("\n" + ("\n" + Tail(f.body)));
  }

  // ----- Round trips -----

  predicate TextLine(l: string) {
    l != "" && Free(l, '\n')
  }

  /** What the printers can express: no escaping exists, so newlines anywhere
      in the head and colons in keys would be read back differently. */
  ghost predicate Printable(f: Frame) {
    && TextLine(f.command)
    && forall k | k in f.headers :: Free(k, '\n') && Free(k, ':') && Free(f.headers[k], '\n')
  }

  function Interleave(lines: seq<string>): seq<Token> {
    if lines == [] then [] else [Line(lines[0]), Newline] + Interleave(lines[1..])
  }

  lemma HeadStarts(lines: seq<string>, x: string)
    requires lines != [] && TextLine(lines[0])
    ensures !StartsLine(Unlines(lines) + x)
  {
    assert (Unlines(lines) + x)[0] == lines[0][0];
  }

  lemma TokensOfLastLine(l: string, x: string)
    requires TextLine(l)
    ensures Tokens(l + ("\n" + ("\n" + x)), '\n') == [Line(l), Newline, Newline] + Tokens(x, '\n')
  {
    TokensOfLine(l, "\n" + x);
    TokensOfLine("", x);
    assert "" + ("\n" + x) == "\n" + x;
    assert [] + Tokens(x, '\n') == Tokens(x, '\n');
  }

  lemma {:induction false} TokensOfHead(lines: seq<string>, x: string)
    requires lines != [] && forall l | l in lines :: TextLine(l)
    ensures Tokens(Unlines(lines) + ("\n" + x), '\n') == Interleave(lines) + [Newline] + Tokens(x, '\n')
  {
    var l, rest := lines[0], lines[1..];
    var after := Unlines(rest) + ("\n" + x);
    assert TextLine(l);
    assert Unlines(lines) + ("\n" + x) == l + ("\n" + after);
    if rest == [] {
      assert after == "\n" + x;
      TokensOfLastLine(l, x);
      assert Interleave(lines) + [Newline] == [Line(l), Newline, Newline];
    } else {
      assert TextLine(rest[0]);
      HeadStarts(rest, "\n" + x);
      TokensOfLine(l, after);
      TokensOfHead(rest, x);
      JoinHead([Line(l), Newline], Interleave(rest), Tokens(x, '\n'));
    }
  }

  lemma JoinHead(a: seq<Token>, b: seq<Token>, c: seq<Token>)
    ensures a + (b + [Newline] + c) == a + b + [Newline] + c
  {
  }

  lemma {:induction false} InterleaveAt(lines: seq<string>, k: nat)
    requires k < |lines|
    ensures |Interleave(lines)| == 2 * |lines|
    ensures Interleave(lines)[2 * k] == Line(lines[k])
    ensures Interleave(lines)[2 * k + 1] == Newline
  {
    var rest := lines[1..];
    if rest == [] {
      assert Interleave(rest) == [];
    } else if k == 0 {
      InterleaveAt(rest, 0);
    } else {
      InterleaveAt(rest, k - 1);
    }
  }

  /** In a printed head the first blank line is the one behind the last line. */
  lemma {:induction false} MarkOfHead(lines: seq<string>, tail: seq<Token>, i: nat)
    requires lines != [] && (tail != [] ==> tail[0].Line?)
    requires 1 <= i < 2 * |lines|
    ensures var t := Interleave(lines) + [Newline] + tail;
            && |t| == 2 * |lines| + 1 + |tail|
            && BodyMark(t, i) == if tail == [] then |t| else 2 * |lines| - 1
    decreases 2 * |lines| - i
  {
    var n := |lines|;
    InterleaveAt(lines, i / 2);
    var t := Interleave(lines) + [Newline] + tail;
    assert t[i] == Interleave(lines)[i];
    if i == 2 * n - 1 {
      assert t[i + 1] == Newline;
      if tail == [] {
        assert BodyMark(t, |t|) == |t|;
        assert BodyMark(t, i + 1) == |t|;
      }
    } else {
      InterleaveAt(lines, (i + 1) / 2);
      assert t[i + 1] == Interleave(lines)[i + 1];
      assert !BlankAt(t, i);
      MarkOfHead(lines, tail, i + 1);
    }
  }

  lemma {:induction false} TextsOfInterleave(lines: seq<string>)
    ensures Texts(Interleave(lines)) == lines
  {
    if lines != [] {
      TextsOfInterleave(lines[1..]);
      TextsAppend([Line(lines[0]), Newline], Interleave(lines[1..]));
      assert [Line(lines[0]), Newline][1..] == [Newline];
      assert Texts([Newline]) == [];
    }
  }
}
