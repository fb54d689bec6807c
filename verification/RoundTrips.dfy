/** Each side reads what the other side printed. */
module RoundTrips {
  import opened Text
  import opened Splitter
  import opened StompFrames

  /** Reading the tokens of any printed head in front of any tail. */
  lemma ReadHead(lines: seq<string>, tail: seq<Token>, t: seq<Token>)
    requires lines != [] && (tail != [] ==> tail[0].Line?)
    requires t == Interleave(lines) + [Newline] + tail
    ensures var b := BodyMark(t, 1);
            && |t| > 1 && t[0] == Line(lines[0])
            && (b == |t| <==> tail == [])
            && Texts(t[1..b]) == lines[1..]
            && (b < |t| ==> BodyOf(t, b) == Spell(tail))
  {
    MarkOfHead(lines, tail, 1);
    InterleaveAt(lines, 0);
    hide BodyMark, Texts, Spell;
    if tail == [] {
      InnerTexts(lines, t[1..], 0);
      assert t[1..|t|] == t[1..];
    } else {
      InnerTexts(lines, t[1..2 * |lines| - 1], 1);
      assert t[2 * |lines| + 1..] == tail;
    }
  }

  /** The tokens between the command and the blank line, give or take the
      separator at the end. */
  lemma InnerTexts(lines: seq<string>, inner: seq<Token>, missing: nat)
    requires lines != [] && missing <= 1
    requires if missing == 1 then inner + [Newline] == Interleave(lines)[1..]
             else inner == Interleave(lines)[1..] + [Newline]
    ensures Texts(inner) == lines[1..]
  {
    var rest := Interleave(lines[1..]);
    assert Interleave(lines)[1..] == [Newline] + rest;
    TextsAppend([Newline], rest);
    assert Texts([Newline]) == [];
    TextsOfInterleave(lines[1..]);
    var x := if missing == 1 then inner else [Newline] + rest;
    TextsAppend(x, [Newline]);
    assert Texts(x + [Newline]) == Texts(x);
  }

  lemma {:induction false} HeaderLinesRead(m: map<string, string>, order: seq<string>)
    requires forall k | k in order :: k in m && Free(k, '\n') && Free(k, ':') && Free(m[k], '\n')
    ensures var lines := HeaderLines(m, order);
            && (forall l | l in lines :: TextLine(l))
            && !Colonless(lines)
            && LastWins(lines) == FirstWins(lines) == map k | k in order :: m[k]
  {
    if order != [] {
      var n := |order| - 1;
      var k, v := order[n], m[order[n]];
      assert k in order;
      assert forall j | j in order[..n] :: j in order;
      HeaderLinesRead(m, order[..n]);
      HeaderLineRead(k, v);
      NextLine(HeaderLines(m, order[..n]), HeaderLine(k, v));
      RestrictNext(m, order, n);
    }
  }

  lemma RestrictNext(m: map<string, string>, order: seq<string>, n: nat)
    requires n + 1 == |order| && forall k | k in order :: k in m
    ensures (map k | k in order :: m[k]) == (map k | k in order[..n] :: m[k])[order[n] := m[order[n]]]
  {
    assert order == order[..n] + [order[n]];
  }

  lemma KeyValue(k: string, v: string)
    requires Free(k, ':')
    ensures !NoColon(HeaderLine(k, v))
    ensures Key(HeaderLine(k, v)) == k && Value(HeaderLine(k, v)) == v
  {
    IndexOfAfter(k, ':', v);
    var l := HeaderLine(k, v);
    assert l[..|k|] == k && l[|k| + 1..] == v;
  }

  lemma HeaderLineRead(k: string, v: string)
    requires Free(k, '\n') && Free(k, ':') && Free(v, '\n')
    ensures var l := HeaderLine(k, v);
            TextLine(l) && !NoColon(l) && Key(l) == k && Value(l) == v
  {
    KeyValue(k, v);
  }

  /** The tokens of what either printer prints, with anything appended. */
  lemma PrintedTokens(f: Frame, order: seq<string>, x: string)
    requires Printable(f) && IsOrder(order, f.headers.Keys)
    ensures Tokens(Unlines(Head(f, order)) + ("\n" + x), '\n') ==
            Interleave(Head(f, order)) + [Newline] + Tokens(x, '\n')
    ensures Head(f, order)[0] == f.command
    ensures !Colonless(Head(f, order)[1..])
    ensures LastWins(Head(f, order)[1..]) == FirstWins(Head(f, order)[1..]) == f.headers
  {
    HeaderLinesRead(f.headers, order);
    assert Head(f, order)[1..] == HeaderLines(f.headers, order);
    assert (map k | k in order :: f.headers[k]) == f.headers;
    TokensOfHead(Head(f, order), x);
  }

  /** Java reads any printed head followed by any body text. */
  lemma JavaReads(f: Frame, order: seq<string>, x: string)
    requires Printable(f) && IsOrder(order, f.headers.Keys)
    ensures JavaParse(Unlines(Head(f, order)) + ("\n" + x)) == Ok(f.(body := Norm(x)))
  {
    PrintedTokens(f, order, x);
    TokenShapes(x);
    var s := Unlines(Head(f, order)) + ("\n" + x);
    JavaParseMeans(s);
    ReadHead(Head(f, order), Tokens(x, '\n'), Tokens(s, '\n'));
    TokensSpellNorm(x);
  }

  /** C++ reads it too, unless nothing at all follows the blank line. */
  lemma CppReads(f: Frame, order: seq<string>, x: string)
    requires Printable(f) && IsOrder(order, f.headers.Keys)
    ensures CppParse(Unlines(Head(f, order)) + ("\n" + x)) ==
            if Norm(x) == "" then Err(OutOfRange) else Ok(f.(body := Norm(x)))
  {
    PrintedTokens(f, order, x);
    TokenShapes(x);
    var s := Unlines(Head(f, order)) + ("\n" + x);
    var t := Tokens(s, '\n');
    CppParseMeans(s);
    ReadHead(Head(f, order), Tokens(x, '\n'), t);
    TokensSpellNorm(x);
    if Tokens(x, '\n') == [] {
      assert t[|t| - 1] == Newline;
    } else {
      assert SpellOne(Tokens(x, '\n')[0]) != "";
    }
  }

  /** Client to server: command and headers arrive unchanged and the body in
      normal form, whatever the order of the headers. */
  lemma ClientToServer(f: Frame, order: seq<string>)
    requires Printable(f) && IsOrder(order, f.headers.Keys)
    ensures JavaParse(CppPrint(f, order)) == Ok(f.(body := Norm(f.body + "\n")))
  {
    JavaReads(f, order, "\n" + Tail(f.body));
    assert DropLeading("\n" + Tail(f.body)) == DropLeading(Tail(f.body)) by {
      assert ("\n" + Tail(f.body))[1..] == Tail(f.body);
    }
    NormOfTail(f.body);
  }

  lemma NormOfTail(body: string)
    ensures Norm(Tail(body)) == Norm(body + "\n")
  {
    if body == "" {
      assert body + "\n" == "\n" && "\n"[1..] == "";
    }
  }

  /** Server to client: getFrameAscii leaves the NUL at the end of the text,
      and it becomes the last character of the body. */
  lemma ServerToClient(f: Frame, order: seq<string>)
    requires Printable(f) && IsOrder(order, f.headers.Keys)
    ensures CppParse(JavaPrint(f, order) + [NUL]) == Ok(f.(body := Norm(f.body + "\n") + [NUL]))
  {
    var head := Unlines(Head(f, order));
    assert JavaPrint(f, order) + [NUL] == head + ("\n" + (Tail(f.body) + [NUL]));
    CppReads(f, order, Tail(f.body) + [NUL]);
    NormSnoc(Tail(f.body), NUL);
    NormOfTail(f.body);
  }

  /** The client parser cannot run past the end of a text that carries its
      NUL, whoever wrote the text. */
  lemma NulKeepsCppInRange(s: string)
    ensures CppParse(s + [NUL]).Ok?
  {
    var t := Tokens(s + [NUL], '\n');
    CppParseMeans(s + [NUL]);
    TokensSpellNorm(s + [NUL]);
    NormSnoc(s, NUL);
    SpellLast(t);
    assert Spell(t)[|Spell(t)| - 1] == NUL;
  }

  lemma SpellLast(t: seq<Token>)
    ensures t != [] && t[|t| - 1].Newline? ==> Spell(t) == Spell(t[..|t| - 1]) + "\n"
  {
    if t != [] && t[|t| - 1].Newline? {
      assert t == t[..|t| - 1] + [Newline];
      SpellAppend(t[..|t| - 1], [Newline]);
      assert [Newline][1..] == [];
    }
  }

  // ----- Repeated headers -----

  /** The value of the first line with this key, as STOMP 1.2 wants it
      ("Repeated Header Entries"). */
  function FirstValue(lines: seq<string>, k: string): Option<string> {
    if lines == [] then None
    else if Key(lines[0]) == k then Some(Value(lines[0]))
    else FirstValue(lines[1..], k)
  }

  function LastValue(lines: seq<string>, k: string): Option<string> {
    if lines == [] then None
    else if LastValue(lines[1..], k).Some? then LastValue(lines[1..], k)
    else if Key(lines[0]) == k then Some(Value(lines[0]))
    else None
  }

  function Get(m: map<string, string>, k: string): Option<string> {
    if k in m then Some(m[k]) else None
  }

  lemma {:induction false} ValuesNext(lines: seq<string>, l: string, k: string)
    ensures FirstValue(lines + [l], k) ==
            if FirstValue(lines, k).Some? then FirstValue(lines, k)
            else if Key(l) == k then Some(Value(l)) else None
    ensures LastValue(lines + [l], k) == if Key(l) == k then Some(Value(l)) else LastValue(lines, k)
  {
    if lines == [] {
      assert lines + [l] == [l];
      assert [l][1..] == [];
    } else {
      ValuesNext(lines[1..], l, k);
      assert (lines + [l])[1..] == lines[1..] + [l];
    }
  }

  /** What the client's and the server's header tables hold. */
  lemma {:induction false} TablesHold(lines: seq<string>, k: string)
    ensures Get(FirstWins(lines), k) == FirstValue(lines, k)
    ensures Get(LastWins(lines), k) == LastValue(lines, k)
  {
    if lines != [] {
      var n := |lines| - 1;
      TablesHold(lines[..n], k);
      ValuesNext(lines[..n], lines[n], k);
      assert lines == lines[..n] + [lines[n]];
    }
  }

  /** No line before this one has its key; no line behind it has its key. */
  predicate IsFirst(lines: seq<string>, i: nat)
    requires i < |lines|
  {
    forall k | 0 <= k < i :: Key(lines[k]) != Key(lines[i])
  }

  predicate IsLast(lines: seq<string>, j: nat)
    requires j < |lines|
  {
    forall k | j < k < |lines| :: Key(lines[k]) != Key(lines[j])
  }

  lemma {:induction false} FirstAt(lines: seq<string>, k: string) returns (i: nat)
    requires FirstValue(lines, k).Some?
    ensures i < |lines| && Key(lines[i]) == k && IsFirst(lines, i) && FirstValue(lines, k) == Some(Value(lines[i]))
  {
    if Key(lines[0]) == k {
      i := 0;
    } else {
      var rest := lines[1..];
      i := FirstAt(rest, k);
      i := i + 1;
      assert forall m | 1 <= m < i :: lines[m] == rest[m - 1];
    }
  }

  lemma {:induction false} LastAt(lines: seq<string>, k: string) returns (j: nat)
    requires LastValue(lines, k).Some?
    ensures j < |lines| && Key(lines[j]) == k && IsLast(lines, j) && LastValue(lines, k) == Some(Value(lines[j]))
  {
    var rest := lines[1..];
    if LastValue(rest, k).Some? {
      j := LastAt(rest, k);
      j := j + 1;
      assert forall m | j < m < |lines| :: lines[m] == rest[m - 1];
    } else {
      j := 0;
      NoneLater(rest, k);
      assert forall m | 0 < m < |lines| :: lines[m] == rest[m - 1];
    }
  }

  lemma {:induction false} NoneLater(lines: seq<string>, k: string)
    requires LastValue(lines, k).None?
    ensures forall m | 0 <= m < |lines| :: Key(lines[m]) != k
  {
    if lines != [] {
      NoneLater(lines[1..], k);
      assert forall m | 1 <= m < |lines| :: lines[m] == lines[1..][m - 1];
    }
  }

  /** The first and the last line with the same key carry the same value. */
  predicate EndsAgree(lines: seq<string>) {
    forall i, j | 0 <= i < |lines| && 0 <= j < |lines| && Key(lines[i]) == Key(lines[j])
                  && IsFirst(lines, i) && IsLast(lines, j) ::
      Value(lines[i]) == Value(lines[j])
  }

  lemma EndsCarryTheValues(lines: seq<string>)
    requires EndsAgree(lines)
    ensures forall k :: LastValue(lines, k) == FirstValue(lines, k)
  {
    forall k
      ensures LastValue(lines, k) == FirstValue(lines, k)
    {
      SomeTogether(lines, k);
      if FirstValue(lines, k).Some? {
        var i := FirstAt(lines, k);
        var j := LastAt(lines, k);
        assert Value(lines[i]) == Value(lines[j]);
      }
    }
  }

  lemma ValuesCarryTheEnds(lines: seq<string>)
    requires forall k :: LastValue(lines, k) == FirstValue(lines, k)
    ensures EndsAgree(lines)
  {
    forall i, j | 0 <= i < |lines| && 0 <= j < |lines| && Key(lines[i]) == Key(lines[j])
                  && IsFirst(lines, i) && IsLast(lines, j)
      ensures Value(lines[i]) == Value(lines[j])
    {
      EndsAreThese(lines, i, j);
      assert LastValue(lines, Key(lines[i])) == FirstValue(lines, Key(lines[i]));
    }
  }

  lemma EndsAreThese(lines: seq<string>, i: nat, j: nat)
    requires i < |lines| && j < |lines| && Key(lines[i]) == Key(lines[j]) && IsFirst(lines, i) && IsLast(lines, j)
    ensures FirstValue(lines, Key(lines[i])) == Some(Value(lines[i]))
    ensures LastValue(lines, Key(lines[i])) == Some(Value(lines[j]))
  {
    var k := Key(lines[i]);
    if FirstValue(lines, k).None? {
      SomeTogether(lines, k);
      NoneLater(lines, k);
      assert false;
    }
    SomeTogether(lines, k);
    var i' := FirstAt(lines, k);
    var j' := LastAt(lines, k);
    assert i' == i && j' == j;
  }

  /** The server follows the standard's rule for repeated headers exactly when
      the first and the last line of every key carry the same value. */
  lemma RepeatedHeaders(lines: seq<string>)
    ensures FirstWins(lines).Keys == LastWins(lines).Keys
    ensures LastWins(lines) == FirstWins(lines) <==> EndsAgree(lines)
  {
    var f, l := FirstWins(lines), LastWins(lines);
    forall k
      ensures k in f <==> k in l
      ensures Get(f, k) == FirstValue(lines, k) && Get(l, k) == LastValue(lines, k)
    {
      TablesHold(lines, k);
      SomeTogether(lines, k);
    }
    if EndsAgree(lines) {
      EndsCarryTheValues(lines);
      forall k | k in f
        ensures f[k] == l[k]
      {
        assert Get(l, k) == Get(f, k);
      }
      assert l == f;
    } else if l == f {
      ValuesCarryTheEnds(lines);
      assert false;
    }
  }

  lemma {:induction false} SomeTogether(lines: seq<string>, k: string)
    ensures LastValue(lines, k).Some? <==> FirstValue(lines, k).Some?
  {
    if lines != [] {
      SomeTogether(lines[1..], k);
    }
  }

  /** A frame for which the two differ. */
  lemma RepeatedHeaderExample()
    ensures FirstWins(["k:1", "k:2"]) != LastWins(["k:1", "k:2"])
  {
    HeaderLineRead("k", "1");
    HeaderLineRead("k", "2");
    var lines := ["k:1", "k:2"];
    assert HeaderLine("k", "1") == "k:1" && HeaderLine("k", "2") == "k:2";
    assert lines[..1] == ["k:1"];
    assert ["k:1"][..0] == [];
    assert FirstWins(lines)["k"] == "1";
    assert LastWins(lines)["k"] == "2";
  }

  /** On any text that both accept, the two parsers agree on everything but
      repeated headers. */
  lemma ParsersAgree(s: string)
    requires JavaParse(s).Ok? && CppParse(s).Ok?
    ensures var j, c := JavaParse(s).value, CppParse(s).value;
            && j.command == c.command && j.body == c.body
            && j.headers.Keys == c.headers.Keys
  {
    var t := Tokens(s, '\n');
    JavaParseMeans(s);
    CppParseMeans(s);
    RepeatedHeaders(Texts(t[1..BodyMark(t, 1)]));
  }

  // ----- What is made of any text -----

  /** The first place with two line ends and something behind them. */
  predicate IsCut(t: seq<Token>, b: nat) {
    && 1 <= b <= |t|
    && (b < |t| ==> b + 2 < |t| && t[b] == t[b + 1] == Newline)
    && forall j | 1 <= j < b && j + 2 < |t| :: !(t[j] == t[j + 1] == Newline)
  }

  lemma {:induction false} MarkIsFirst(t: seq<Token>, i: nat)
    requires i <= |t|
    ensures forall j | i <= j < BodyMark(t, i) :: !BlankAt(t, j)
    decreases |t| - i
  {
    if i < |t| && !BlankAt(t, i) {
      MarkIsFirst(t, i + 1);
    }
  }

  lemma MarkIsCut(t: seq<Token>)
    requires t != []
    ensures IsCut(t, BodyMark(t, 1))
  {
    MarkIsFirst(t, 1);
    forall j | 1 <= j < BodyMark(t, 1) && j + 2 < |t|
      ensures !(t[j] == t[j + 1] == Newline)
    {
      assert !BlankAt(t, j);
    }
  }

  lemma {:induction false} ColonlessMeans(lines: seq<string>)
    ensures Colonless(lines) <==> exists i :: 0 <= i < |lines| && Free(lines[i], ':')
  {
    if lines != [] {
      var n := |lines| - 1;
      ColonlessMeans(lines[..n]);
      assert NoColon(lines[n]) <==> Free(lines[n], ':');
      forall i | 0 <= i < n
        ensures lines[..n][i] == lines[i]
      {
      }
      if Colonless(lines[..n]) {
        var i :| 0 <= i < n && Free(lines[..n][i], ':');
        assert Free(lines[i], ':');
      }
    }
  }

  /** Each key of the lines, and no other, with the value of its last line. */
  predicate LastValues(m: map<string, string>, lines: seq<string>) {
    && (forall i | 0 <= i < |lines| && IsLast(lines, i) :: Key(lines[i]) in m && m[Key(lines[i])] == Value(lines[i]))
    && (forall k | k in m :: exists i :: 0 <= i < |lines| && Key(lines[i]) == k && IsLast(lines, i))
  }

  /** The same with the first line. */
  predicate FirstValues(m: map<string, string>, lines: seq<string>) {
    && (forall i | 0 <= i < |lines| && IsFirst(lines, i) :: Key(lines[i]) in m && m[Key(lines[i])] == Value(lines[i]))
    && (forall k | k in m :: exists i :: 0 <= i < |lines| && Key(lines[i]) == k && IsFirst(lines, i))
  }

  lemma LastWinsMeans(lines: seq<string>)
    ensures LastValues(LastWins(lines), lines)
  {
    hide LastWins, LastValue, Key, Value, IsLast, FirstWins;
    var m := LastWins(lines);
    forall i | 0 <= i < |lines| && IsLast(lines, i)
      ensures Key(lines[i]) in m && m[Key(lines[i])] == Value(lines[i])
    {
      TablesHold(lines, Key(lines[i]));
      LastIsThis(lines, i);
    }
    forall k | k in m
      ensures exists i :: 0 <= i < |lines| && Key(lines[i]) == k && IsLast(lines, i)
    {
      TablesHold(lines, k);
      var i := LastAt(lines, k);
    }
  }

  lemma LastIsThis(lines: seq<string>, i: nat)
    requires i < |lines| && IsLast(lines, i)
    ensures LastValue(lines, Key(lines[i])) == Some(Value(lines[i]))
  {
    hide Key, Value, LastValue;
    var k := Key(lines[i]);
    if LastValue(lines, k).None? {
      NoneLater(lines, k);
      assert false;
    }
    var j := LastAt(lines, k);
    assert i == j;
  }

  lemma FirstWinsMeans(lines: seq<string>)
    ensures FirstValues(FirstWins(lines), lines)
  {
    hide LastWins, FirstValue, Key, Value, IsFirst, FirstWins;
    var m := FirstWins(lines);
    forall i | 0 <= i < |lines| && IsFirst(lines, i)
      ensures Key(lines[i]) in m && m[Key(lines[i])] == Value(lines[i])
    {
      TablesHold(lines, Key(lines[i]));
      FirstIsThis(lines, i);
    }
    forall k | k in m
      ensures exists i :: 0 <= i < |lines| && Key(lines[i]) == k && IsFirst(lines, i)
    {
      TablesHold(lines, k);
      var i := FirstAt(lines, k);
    }
  }

  lemma FirstIsThis(lines: seq<string>, i: nat)
    requires i < |lines| && IsFirst(lines, i)
    ensures FirstValue(lines, Key(lines[i])) == Some(Value(lines[i]))
  {
    hide Key, Value, FirstValue, LastValue;
    var k := Key(lines[i]);
    SomeTogether(lines, k);
    if FirstValue(lines, k).None? {
      NoneLater(lines, k);
      assert false;
    }
    var j := FirstAt(lines, k);
    assert i == j;
  }

  /** The server's parser on any text, by its tokens: the cut, the lines in front
      of it, and the exceptions. */
  lemma JavaReadsAny(s: string) returns (b: nat)
    ensures var t := Tokens(s, '\n');
            if t == [] then JavaParse(s) == Err(IndexOutOfBounds)
            else
              && IsCut(t, b)
              && var lines := Texts(t[1..b]);
                 if exists i :: 0 <= i < |lines| && Free(lines[i], ':') then
                   JavaParse(s) == Err(StringIndexOutOfBounds)
                 else
                   && JavaParse(s).Ok?
                   && var f := JavaParse(s).value;
                      && LastValues(f.headers, lines)
                      && f.command == SpellOne(t[0]) && f.body == if b < |t| then Spell(t[b + 2..]) else ""
  {
    hide Tokens, JavaParse, Texts, Colonless, LastWins, LastValues, Spell, SpellOne;
    var t := Tokens(s, '\n');
    b := BodyMark(t, if t == [] then 0 else 1);
    JavaParseMeans(s);
    if t != [] {
      MarkIsCut(t);
      ColonlessMeans(Texts(t[1..b]));
      LastWinsMeans(Texts(t[1..b]));
    }
  }

  /** The client's parser on any text. */
  lemma CppReadsAny(s: string) returns (b: nat)
    ensures var t := Tokens(s, '\n');
            if t == [] then CppParse(s) == Err(OutOfRange)
            else
              && IsCut(t, b)
              && if b == |t| && t[|t| - 1].Newline? then CppParse(s) == Err(OutOfRange)
                 else
                   && CppParse(s).Ok?
                   && var f := CppParse(s).value;
                      && FirstValues(f.headers, Texts(t[1..b]))
                      && f.command == SpellOne(t[0]) && f.body == if b < |t| then Spell(t[b + 2..]) else ""
  {
    hide Tokens, CppParse, Texts, FirstWins, FirstValues, Spell, SpellOne;
    var t := Tokens(s, '\n');
    b := BodyMark(t, if t == [] then 0 else 1);
    CppParseMeans(s);
    if t != [] {
      MarkIsCut(t);
      FirstWinsMeans(Texts(t[1..b]));
    }
  }
}
