/** The two links between a client and the server, down to the bytes: what the
    read half makes of the client's requests, and what the client finds in the
    bytes of the write half. */
module Links {
  import opened Text
  import opened Splitter
  import opened StompFrames
  import opened RoundTrips
  import opened Decimal
  import opened Reports
  import opened FrameCodec
  import RP = ReadPath
  import WP = WritePath
  import opened ConnectionTables
  import opened ServerProtocol
  import SR = ServerRuns
  import opened SentFrames
  import opened ServerView
  import opened ClientSession
  import opened OneCall
  import opened OwnRequests
  import opened SessionRuns
  import opened SessionInvariant
  import opened SessionTheorems

  // ----- What is printed holds no NUL -----

  lemma {:induction false} UnlinesFree(lines: seq<string>)
    requires forall l | l in lines :: Free(l, NUL)
    ensures Free(Unlines(lines), NUL)
  {
    if lines != [] {
      assert lines[0] in lines && forall l | l in lines[1..] :: l in lines;
      UnlinesFree(lines[1..]);
    }
  }

  lemma {:induction false} HeaderLinesFree(f: Frame, order: seq<string>)
    requires NulFree(f) && forall k | k in order :: k in f.headers
    ensures forall l | l in HeaderLines(f.headers, order) :: Free(l, NUL)
  {
    if order != [] {
      var n := |order| - 1;
      assert order[n] in order && forall k | k in order[..n] :: k in order;
      HeaderLinesFree(f, order[..n]);
    }
  }

  lemma PrintedIsNulFree(f: Frame, order: seq<string>)
    requires NulFree(f) && forall k | k in order :: k in f.headers
    ensures Free(JavaPrint(f, order), NUL) && Free(CppPrint(f, order), NUL)
  {
    HeaderLinesFree(f, order);
    hide HeaderLines;
    UnlinesFree(Head(f, order));
  }

  lemma NamesAreNulFree(r: Request)
    ensures Free(FrameOf(r).command, NUL)
    ensures forall k | k in FrameOf(r).headers :: Free(k, NUL)
  {
    CommandsHoldNoNul();
    HeadersHoldNoNul();
    hide Free;
  }

  lemma CommandsHoldNoNul()
    ensures Free("CONNECT", NUL) && Free("SUBSCRIBE", NUL) && Free("UNSUBSCRIBE", NUL) && Free("SEND", NUL)
    ensures Free("DISCONNECT", NUL)
  {
  }

  lemma HeadersHoldNoNul()
    ensures Free("accept-version", NUL) && Free("host", NUL) && Free("login", NUL) && Free("passcode", NUL)
    ensures Free("destination", NUL) && Free("id", NUL) && Free("receipt", NUL)
  {
  }

  lemma ReportNamesHoldNoNul()
    ensures Free("user", NUL) && Free("city", NUL) && Free("event name", NUL) && Free("date time", NUL)
    ensures Free("active", NUL) && Free("forces_arrival_at_scene", NUL) && Free("\t", NUL)
    ensures Free("general information:", NUL) && Free("description:", NUL)
  {
  }

  lemma ValuesAreNulFree(r: Request)
    requires Sendable(r)
    ensures Free(FrameOf(r).body, NUL)
    ensures forall k | k in FrameOf(r).headers :: Free(FrameOf(r).headers[k], NUL)
  {
    assert Free("1.2", NUL) && Free("stomp.cs.bgu.ac.il", NUL);
    hide ToString;
    match r
    case Connect(_, _) =>
    case Subscribe(_, id, receipt) =>
      ToStringPlain(id);
      ToStringPlain(receipt);
    case Unsubscribe(_, id, receipt) =>
      ToStringPlain(id);
      ToStringPlain(receipt);
    case Send(_, _) =>
    case Disconnect(receipt) => ToStringPlain(receipt);
  }

  lemma RequestIsNulFree(r: Request)
    requires Sendable(r)
    ensures Free(WireText(r), NUL)
  {
    HeaderOrderIsOrder(r);
    NamesAreNulFree(r);
    ValuesAreNulFree(r);
    hide FrameOf, ToString, HeaderOrder, CppPrint, Free;
    PrintedIsNulFree(FrameOf(r), HeaderOrder(r));
  }

  lemma ReportIsFreeIff(user: string, e: Event)
    requires Reportable(e)
    ensures Free(ReportBody(user, e), NUL) <==>
            && Free(user, NUL) && Free(e.city, NUL) && Free(e.name, NUL) && Free(e.description, NUL)
            && Free(e.info["active"], NUL) && Free(e.info["forces_arrival_at_scene"], NUL)
  {
    LinesInText(ReportLines(user, e));
    var l := ReportLines(user, e);
    assert l == [l[0], l[1], l[2], l[3], l[4], l[5], l[6], l[7], l[8]];
    HeadingFree(user, e);
    hide Unlines, Heading, Free;
  }

  lemma HeadingFree(user: string, e: Event)
    requires Reportable(e)
    ensures var h := Heading(user, e);
            && (Free(h[0], NUL) <==> Free(user, NUL)) && (Free(h[1], NUL) <==> Free(e.city, NUL))
            && (Free(h[2], NUL) <==> Free(e.name, NUL)) && Free(h[3], NUL) && Free(h[4], NUL)
            && (Free(h[5], NUL) <==> Free(e.info["active"], NUL))
            && (Free(h[6], NUL) <==> Free(e.info["forces_arrival_at_scene"], NUL)) && Free(h[7], NUL)
  {
    ToStringPlain(e.dateTime);
    ReportNamesHoldNoNul();
    hide ToString, Free;
    ValueFree("user", user);
    ValueFree("city", e.city);
    ValueFree("event name", e.name);
    ValueFree("date time", ToString(e.dateTime));
    ValueFree("active", e.info["active"]);
    ValueFree("forces_arrival_at_scene", e.info["forces_arrival_at_scene"]);
    LineFree("\t", HeaderLine("active", e.info["active"]));
    LineFree("\t", HeaderLine("forces_arrival_at_scene", e.info["forces_arrival_at_scene"]));
    hide HeaderLine;
  }

  lemma ValueFree(key: string, value: string)
    requires Free(key, NUL)
    ensures Free(HeaderLine(key, value), NUL) <==> Free(value, NUL)
  {
    LineFree(key + [':'], value);
  }

  lemma LineFree(a: string, b: string)
    requires Free(a, NUL)
    ensures Free(a + b, NUL) <==> Free(b, NUL)
  {
    if Free(a + b, NUL) {
      forall k | 0 <= k < |b|
        ensures b[k] != NUL
      {
        assert (a + b)[|a| + k] == b[k];
      }
    }
  }

  lemma {:induction false} LinesInText(lines: seq<string>)
    ensures Free(Unlines(lines), NUL) <==> forall l | l in lines :: Free(l, NUL)
  {
    if forall l | l in lines :: Free(l, NUL) {
      UnlinesFree(lines);
    } else {
      assert lines != [];
      LinesInText(lines[1..]);
      assert lines == [lines[0]] + lines[1..];
      var x := "\n" + Unlines(lines[1..]);
      if Free(lines[0] + x, NUL) {
        assert lines[0] == (lines[0] + x)[..|lines[0]|];
        LineFree(lines[0], x);
        LineFree("\n", Unlines(lines[1..]));
      }
    }
  }

  /** A message is decoded to itself exactly when it holds no NUL. */
  lemma OneFrameIff(text: string)
    ensures Frames(Encode(text)) == [text] <==> Free(text, NUL)
  {
    DecodeLeavesNoNul("", Encode(text));
    if Free(text, NUL) {
      DecodeOne(text);
    }
    var f := Frames(Encode(text));
    hide Decode;
    assert f == [text] ==> f[0] == text && f[0] in f;
  }

  lemma SendIsFreeIff(channel: string, body: string)
    requires Plain(channel)
    ensures Free(WireText(Send(channel, body)), NUL) <==> Free(body, NUL)
  {
    var r := Send(channel, body);
    HeaderOrderIsOrder(r);
    if Free(body, NUL) {
      RequestIsNulFree(r);
    }
    var head := Unlines(Head(FrameOf(r), HeaderOrder(r)));
    assert WireText(r) == head + ("\n" + ("\n" + Tail(body)));
    hide Unlines, Head, WireText;
    BodyIsFree(head, body);
  }

  lemma BodyIsFree(head: string, body: string)
    ensures Free(head + ("\n" + ("\n" + Tail(body))), NUL) ==> Free(body, NUL)
  {
    var text := head + ("\n" + ("\n" + Tail(body)));
    assert forall k | 0 <= k < |body| :: text[|head| + 2 + k] == body[k];
  }

  /** A report travels as one frame exactly when none of its fields holds a NUL. */
  lemma ReportIsOneFrameIff(user: string, channel: string, e: Event)
    requires Reportable(e) && Plain(channel)
    ensures var text := WireText(Send(channel, ReportBody(user, e)));
            Frames(Encode(text)) == [text] <==>
            && Free(user, NUL) && Free(e.city, NUL) && Free(e.name, NUL) && Free(e.description, NUL)
            && Free(e.info["active"], NUL) && Free(e.info["forces_arrival_at_scene"], NUL)
  {
    OneFrameIff(WireText(Send(channel, ReportBody(user, e))));
    SendIsFreeIff(channel, ReportBody(user, e));
    ReportIsFreeIff(user, e);
    hide Decode, WireText, ReportBody, Free;
  }

  // ----- From the client's requests to the calls of process -----

  /** A call of process, and whether it threw. */
  datatype Call = Call(text: string, threw: bool)

  /** The calls for these frames; only over the last one may process throw. */
  function CallsFor(frames: seq<string>, throws: bool): seq<Call> {
    if frames == [] then []
    else [Call(frames[0], throws && |frames| == 1)] + CallsFor(frames[1..], throws)
  }

  /** The calls that the read half has made for what it gave to its decoder. */
  function CallsMade(pieces: seq<RP.Piece>, taken: string): seq<Call> {
    if pieces == [] then CallsFor(Frames(taken), false)
    else CallsFor(Frames(pieces[0].given), true) + CallsMade(pieces[1..], taken)
  }

  function TextsOf(calls: seq<Call>): seq<string> {
    if calls == [] then [] else [calls[0].text] + TextsOf(calls[1..])
  }

  /** What an arrival does to the link: how its call ended and, if it threw,
      where its chunk ended. */
  datatype Move = Move(threw: bool, drop: nat, cut: nat)

  predicate Possible(s: Session, moves: seq<Move>)
    decreases |moves|
  {
    moves == [] ||
    (HasNext(s) && MayEndAt(s.asked, |s.fates| + 1, moves[0].drop, moves[0].cut)
     && Possible(Advanced(s, moves[0].threw, moves[0].drop, moves[0].cut), moves[1..]))
  }

  /** The calls of a session that makes these moves: the texts are those that
      its arrivals hand to process. */
  function CallsOf(s: Session, moves: seq<Move>): seq<Call>
    requires Possible(s, moves)
    decreases |moves|
  {
    if moves == [] then []
    else [Call(WireText(s.asked[|s.fates|])[s.cut..], moves[0].threw)]
         + CallsOf(Advanced(s, moves[0].threw, moves[0].drop, moves[0].cut), moves[1..])
  }

  function Moved(s: Session, moves: seq<Move>): Session
    requires Possible(s, moves)
    decreases |moves|
  {
    if moves == [] then s else Moved(Advanced(s, moves[0].threw, moves[0].drop, moves[0].cut), moves[1..])
  }

  lemma {:induction false} MovesCompose(s: Session, a: seq<Move>, b: seq<Move>)
    requires Possible(s, a) && Possible(Moved(s, a), b)
    ensures Possible(s, a + b) && Moved(s, a + b) == Moved(Moved(s, a), b)
    ensures CallsOf(s, a + b) == CallsOf(s, a) + CallsOf(Moved(s, a), b)
    decreases |a|
  {
    hide Advanced, HasNext, MayEndAt, WireText;
    if a == [] {
      assert a + b == b;
      assert [] + CallsOf(s, b) == CallsOf(s, b);
    } else {
      var s' := Advanced(s, a[0].threw, a[0].drop, a[0].cut);
      assert (a + b)[1..] == a[1..] + b && (a + b)[0] == a[0];
      MovesCompose(s', a[1..], b);
    }
  }

  /** The bytes from byte `cut` of request `n` on. */
  function Coming(asked: seq<Request>, n: nat, cut: nat): string
    requires MayEndAt(asked, n, 0, cut)
    decreases |asked| - n
  {
    if n == |asked| then "" else WireText(asked[n])[cut..] + ([NUL] + Coming(asked, n + 1, 0))
  }

  /** The bytes still under way to the server. */
  function Left(s: Session): string
    requires OnLink(s)
  {
    Coming(s.asked, |s.fates|, s.cut)
  }

  predicate OnLink(s: Session) {
    |s.fates| <= |s.asked| && MayEndAt(s.asked, |s.fates|, 0, s.cut)
  }

  lemma {:induction false} WireTextsAre(asked: seq<Request>)
    ensures |WireTexts(asked)| == |asked|
    ensures forall i | 0 <= i < |asked| :: WireTexts(asked)[i] == WireText(asked[i])
  {
    hide WireText;
    if asked != [] {
      WireTextsAre(asked[..|asked| - 1]);
    }
  }

  lemma {:induction false} ComingFrom(asked: seq<Request>, n: nat)
    requires n <= |asked|
    ensures |WireTexts(asked)| == |asked| && Coming(asked, n, 0) == EncodeAll(WireTexts(asked)[n..])
    decreases |asked| - n
  {
    WireTextsAre(asked);
    hide WireText, WireTexts;
    if n < |asked| {
      ComingFrom(asked, n + 1);
      var rest := WireTexts(asked)[n..];
      assert rest[1..] == WireTexts(asked)[n + 1..] && rest[0] == WireText(asked[n]) == WireText(asked[n])[0..];
      Assoc(WireText(asked[n]), [NUL], Coming(asked, n + 1, 0));
    }
  }

  /** Bytes that are dropped end in some request. */
  lemma {:induction false} Drop(asked: seq<Request>, n: nat, d: string) returns (drop: nat, cut: nat)
    requires n <= |asked| && d <= Coming(asked, n, 0)
    ensures MayEndAt(asked, n, drop, cut) && MayEndAt(asked, n + drop, 0, cut)
    ensures Coming(asked, n, 0) == d + Coming(asked, n + drop, cut)
    decreases |asked| - n
  {
    hide WireText;
    if d == "" {
      drop, cut := 0, 0;
    } else {
      var text, later := WireText(asked[n]), Coming(asked, n + 1, 0);
      assert text[0..] == text;
      if |d| <= |text| {
        drop, cut := 0, |d|;
        assert d == text[..|d|];
        assert text + ([NUL] + later) == d + (text[|d|..] + ([NUL] + later));
      } else {
        var d' := d[|text| + 1..];
        assert d == (text + ([NUL] + later))[..|d|];
        assert d == text + [NUL] + d' && d' == later[..|d'|];
        drop, cut := Drop(asked, n + 1, d');
        drop := drop + 1;
        Joined(text, later, d', Coming(asked, n + drop, cut));
      }
    }
  }

  lemma Joined(text: string, later: string, d: string, rest: string)
    requires later == d + rest
    ensures text + ([NUL] + later) == (text + [NUL] + d) + rest
  {
  }

  /** The session stands on its link and all it has asked can be sent. */
  predicate Standing(s: Session) {
    OnLink(s) && forall r | r in s.asked :: Sendable(r)
  }

  /** The bytes behind a first NUL. */
  lemma FirstText(text: string, later: string, g: string) returns (g': string)
    requires Free(text, NUL) && g <= text + ([NUL] + later) && !Free(g, NUL)
    ensures g == Encode(text) + g' && g' <= later
    ensures Frames(g) == [text] + Frames(g') && Unfinished(g) == Unfinished(g')
    ensures RP.EndsInNul(g) ==> g' == "" || RP.EndsInNul(g')
  {
    var all := text + ([NUL] + later);
    assert g == all[..|g|];
    assert forall k | 0 <= k < |g| && k < |text| :: g[k] == text[k];
    g' := g[|text| + 1..];
    assert g == Encode(text) + g' && g' == later[..|g'|];
    DecodeOne(text);
    DecodeAppend("", Encode(text), g');
    hide Decode;
  }

  lemma AdvancedStands(s: Session, threw: bool, drop: nat, cut: nat)
    requires Standing(s) && HasNext(s) && MayEndAt(s.asked, |s.fates| + 1, drop, cut)
    requires threw || (drop == 0 && cut == 0)
    ensures var s' := Advanced(s, threw, drop, cut);
            Standing(s') && |s'.fates| == |s.fates| + 1 + drop && s'.cut == cut && s'.asked == s.asked
  {
    hide WireText, Sendable;
    DroppingLength(drop);
    var s' := Advanced(s, threw, drop, cut);
    assert s'.asked == s.asked && |s'.fates| == |s.fates| + 1 + drop;
    hide Advanced, HasNext;
  }

  /** The call for what is left of the next request. */
  lemma OneMove(s: Session, threw: bool, drop: nat, cut: nat)
    requires Standing(s) && HasNext(s) && MayEndAt(s.asked, |s.fates| + 1, drop, cut)
    requires threw || (drop == 0 && cut == 0)
    ensures var s', m := Advanced(s, threw, drop, cut), [Move(threw, drop, cut)];
            && Standing(s') && |s'.fates| == |s.fates| + 1 + drop && s'.cut == cut && s'.asked == s.asked
            && Possible(s, m) && Moved(s, m) == s'
            && CallsOf(s, m) == [Call(WireText(s.asked[|s.fates|])[s.cut..], threw)]
  {
    AdvancedStands(s, threw, drop, cut);
    var m := [Move(threw, drop, cut)];
    assert m[1..] == [] && m[0] == Move(threw, drop, cut);
    hide WireText, Standing, Advanced, MayEndAt;
  }

  lemma {:induction false} DroppingLength(n: nat)
    ensures |Dropping(n)| == n
  {
    if n > 0 {
      DroppingLength(n - 1);
    }
  }

  lemma CallsForMore(text: string, frames: seq<string>, throws: bool)
    ensures CallsFor([text] + frames, throws) == [Call(text, throws && frames == [])] + CallsFor(frames, throws)
  {
    assert ([text] + frames)[1..] == frames;
  }

  /** What is left of the next request, as the read half finds it. */
  lemma NextText(s: Session)
    requires Standing(s) && Left(s) != ""
    ensures HasNext(s) && MayEndAt(s.asked, |s.fates| + 1, 0, 0)
    ensures Free(WireText(s.asked[|s.fates|])[s.cut..], NUL)
    ensures Left(s) == WireText(s.asked[|s.fates|])[s.cut..] + ([NUL] + Coming(s.asked, |s.fates| + 1, 0))
  {
    assert s.asked[|s.fates|] in s.asked;
    RequestIsNulFree(s.asked[|s.fates|]);
    hide WireText, Sendable;
  }

  /** A piece: its last call throws, and the rest of the chunk is dropped. */
  lemma {:induction false} PieceArrives(s: Session, g: string, d: string) returns (moves: seq<Move>)
    requires Standing(s) && RP.EndsInNul(g) && g + d <= Left(s)
    ensures Possible(s, moves) && Standing(Moved(s, moves)) && Moved(s, moves).asked == s.asked
    ensures CallsOf(s, moves) == CallsFor(Frames(g), true)
    ensures Left(s) == (g + d) + Left(Moved(s, moves))
    decreases |g|
  {
    hide WireText, Sendable, Advanced, Possible, CallsOf, Moved, Standing, Coming, Decode;
    NextText(s);
    var text, later := WireText(s.asked[|s.fates|])[s.cut..], Coming(s.asked, |s.fates| + 1, 0);
    assert g <= Left(s) && !Free(g, NUL);
    var g' := FirstText(text, later, g);
    CallsForMore(text, Frames(g'), true);
    AllOfIt(text, g', d, later);
    NulEndsFrame(if g' == "" then g else g');
    if g' == "" {
      var drop, cut := Drop(s.asked, |s.fates| + 1, d);
      OneMove(s, true, drop, cut);
      moves := [Move(true, drop, cut)];
    } else {
      OneMove(s, false, 0, 0);
      var s' := Advanced(s, false, 0, 0);
      var others := PieceArrives(s', g', d);
      MovesCompose(s, [Move(false, 0, 0)], others);
      moves := [Move(false, 0, 0)] + others;
    }
  }

  lemma AllOfIt(text: string, g: string, d: string, later: string)
    requires (Encode(text) + g) + d <= text + ([NUL] + later)
    ensures g + d <= later
    ensures forall rest | later == (g + d) + rest :: text + ([NUL] + later) == ((Encode(text) + g) + d) + rest
  {
    var x, all, n := (Encode(text) + g) + d, text + ([NUL] + later), |text| + 1;
    assert x == all[..|x|];
    assert g + d == x[n..] == later[..|g + d|];
  }

  lemma NulEndsFrame(g: string)
    requires RP.EndsInNul(g)
    ensures Frames(g) != [] && Frames("") == []
  {
    var n := |g| - 1;
    DecodeNext("", g[..n], NUL);
    assert g[..n] + [NUL] == g;
  }

  /** What was given since the last exception: no call throws. */
  lemma {:induction false} RestArrives(s: Session, t: string) returns (moves: seq<Move>)
    requires Standing(s) && t <= Left(s)
    ensures Possible(s, moves) && Standing(Moved(s, moves)) && Moved(s, moves).asked == s.asked
    ensures CallsOf(s, moves) == CallsFor(Frames(t), false)
    ensures Unfinished(t) <= Left(Moved(s, moves))
    ensures Left(s) == t + Left(Moved(s, moves))[|Unfinished(t)|..]
    decreases |t|
  {
    hide WireText, Sendable, Advanced, OnLink, Coming, Decode;
    if Free(t, NUL) {
      DecodePlain("", t);
      moves := [];
      assert "" + t == t;
    } else {
      NextText(s);
      hide Possible, Moved, CallsOf;
      var text, later := WireText(s.asked[|s.fates|])[s.cut..], Coming(s.asked, |s.fates| + 1, 0);
      var t' := FirstText(text, later, t);
      CallsForMore(text, Frames(t'), false);
      OneMove(s, false, 0, 0);
      var s' := Advanced(s, false, 0, 0);
      var others := RestArrives(s', t');
      MovesCompose(s, [Move(false, 0, 0)], others);
      moves := [Move(false, 0, 0)] + others;
      Joined(text, later, t', Left(Moved(s, moves))[|Unfinished(t)|..]);
    }
  }

  lemma {:induction false} PiecesFromFront(pieces: seq<RP.Piece>)
    requires pieces != []
    ensures RP.Given(pieces) == pieces[0].given + RP.Given(pieces[1..])
    ensures RP.Both(pieces) == (pieces[0].given + pieces[0].dropped) + RP.Both(pieces[1..])
    decreases |pieces|
  {
    var n := |pieces| - 1;
    var p := pieces[n];
    if n == 0 {
      assert pieces[..0] == [] && pieces[1..] == [];
    } else {
      PiecesFromFront(pieces[..n]);
      var q := pieces[1..n];
      assert pieces[..n][1..] == q && pieces[1..][..n - 1] == q;
      assert pieces[1..][n - 1] == p && pieces[..n][0] == pieces[0];
      assert RP.Given(pieces[1..]) == RP.Given(q) + p.given;
      assert RP.Both(pieces[1..]) == RP.Both(q) + (p.given + p.dropped);
      hide RP.Given, RP.Both;
      Assoc(pieces[0].given, RP.Given(q), p.given);
      Assoc(pieces[0].given + pieces[0].dropped, RP.Both(q), p.given + p.dropped);
    }
  }

  predicate AllEndInNul(pieces: seq<RP.Piece>) {
    forall k | 0 <= k < |pieces| :: RP.EndsInNul(pieces[k].given)
  }

  lemma {:induction false} AllArrive(s: Session, pieces: seq<RP.Piece>, taken: string) returns (moves: seq<Move>)
    requires Standing(s) && AllEndInNul(pieces) && RP.Both(pieces) + taken <= Left(s)
    ensures Possible(s, moves) && Standing(Moved(s, moves)) && Moved(s, moves).asked == s.asked
    ensures CallsOf(s, moves) == CallsMade(pieces, taken)
    ensures Unfinished(taken) <= Left(Moved(s, moves))
    ensures Left(s) == (RP.Both(pieces) + taken) + Left(Moved(s, moves))[|Unfinished(taken)|..]
    decreases |pieces|
  {
    hide WireText, Sendable, Advanced, Possible, CallsOf, Moved, OnLink, Coming, Decode, CallsFor;
    if pieces == [] {
      assert RP.Both(pieces) + taken == taken;
      moves := RestArrives(s, taken);
    } else {
      PiecesFromFront(pieces);
      var g, d, rest := pieces[0].given, pieces[0].dropped, RP.Both(pieces[1..]) + taken;
      Assoc(g + d, RP.Both(pieces[1..]), taken);
      hide RP.Both;
      PrefixOfSum(g + d, rest, Left(s));
      var first := PieceArrives(s, g, d);
      var s' := Moved(s, first);
      BehindPrefix(g + d, rest, Left(s'));
      var others := AllArrive(s', pieces[1..], taken);
      MovesCompose(s, first, others);
      moves := first + others;
      Assoc(g + d, rest, Left(Moved(s, moves))[|Unfinished(taken)|..]);
    }
  }

  lemma PrefixOfSum(a: string, b: string, x: string)
    requires a + b <= x
    ensures a <= x
  {
    assert a == (a + b)[..|a|];
  }

  lemma BehindPrefix(a: string, b: string, x: string)
    requires a + b <= a + x
    ensures b <= x
  {
    var n := |a|;
    assert a + b == (a + x)[..|a + b|];
    assert b == (a + b)[n..] && x == (a + x)[n..];
  }

  /** The calls are for the frames of all that the decoder was given. */
  lemma {:induction false} CallsAreFrames(pieces: seq<RP.Piece>, taken: string)
    requires AllEndInNul(pieces)
    ensures TextsOf(CallsMade(pieces, taken)) == Frames(RP.Given(pieces) + taken)
    ensures Unfinished(RP.Given(pieces) + taken) == Unfinished(taken)
    decreases |pieces|
  {
    hide Decode;
    if pieces == [] {
      assert RP.Given(pieces) + taken == taken;
      TextsOfCalls(Frames(taken), false);
    } else {
      PiecesFromFront(pieces);
      var g, rest := pieces[0].given, RP.Given(pieces[1..]) + taken;
      CallsAreFrames(pieces[1..], taken);
      assert CallsMade(pieces, taken) == CallsFor(Frames(g), true) + CallsMade(pieces[1..], taken);
      hide RP.Given, CallsMade, CallsFor;
      Assoc(g, RP.Given(pieces[1..]), taken);
      DecodeAppend("", g, rest);
      DecodeNext("", g[..|g| - 1], NUL);
      assert g[..|g| - 1] + [NUL] == g;
      TextsOfCalls(Frames(g), true);
      TextsOfBoth(CallsFor(Frames(g), true), CallsMade(pieces[1..], taken));
    }
  }

  lemma {:induction false} TextsOfCalls(frames: seq<string>, throws: bool)
    ensures TextsOf(CallsFor(frames, throws)) == frames
  {
    if frames != [] {
      TextsOfCalls(frames[1..], throws);
      var c := CallsFor(frames, throws);
      assert c[1..] == CallsFor(frames[1..], throws);
    }
  }

  lemma {:induction false} TextsOfBoth(a: seq<Call>, b: seq<Call>)
    ensures TextsOf(a + b) == TextsOf(a) + TextsOf(b)
  {
    if a == [] {
      assert a + b == b;
    } else {
      TextsOfBoth(a[1..], b);
      assert (a + b)[1..] == a[1..] + b;
    }
  }

  // ----- Uplink -----

  function ReadState(threads: nat, steps: seq<RP.ReadStep>): RP.State
    requires RP.LegalRun(RP.Begin(threads), steps)
  {
    RP.RunTo(RP.Begin(threads), steps)
  }

  predicate Idle(r: RP.State, conn: nat) {
    conn !in r.work.pool.playing && !(r.selector.Filled? && r.selector.conn == conn)
  }

  /** The bytes read from the channel are some of those the client has sent. */
  predicate ReadsFrom(r: RP.State, conn: nat, asked: seq<Request>) {
    RP.Held(r.received, conn) <= EncodeAll(WireTexts(asked))
  }

  /** The decoder never makes a message with a NUL in it. */
  lemma FramesAreNulFree(threads: nat, steps: seq<RP.ReadStep>, conn: nat)
    requires RP.LegalRun(RP.Begin(threads), steps)
    ensures forall f | f in RP.FramesOf(ReadState(threads, steps), conn) :: Free(f, NUL)
  {
    RP.FramesInOrder(threads, steps, conn);
    var r := ReadState(threads, steps);
    hide RP.LegalRun, RP.RunTo, Decode;
    DecodeLeavesNoNul("", RP.Held(r.consumed, conn));
  }

  /** As long as no call has thrown, the messages handed to process are the
      first requests of the client, whole and in order; and all of them once all
      bytes have been read and nothing is left to do. */
  lemma RequestsComeWhole(threads: nat, steps: seq<RP.ReadStep>, conn: nat, asked: seq<Request>)
    requires RP.LegalRun(RP.Begin(threads), steps) && ReadsFrom(ReadState(threads, steps), conn, asked)
    requires forall r | r in asked :: Sendable(r)
    requires RP.PiecesOf(ReadState(threads, steps), conn) == []
    ensures var r := ReadState(threads, steps);
            && RP.FramesOf(r, conn) <= WireTexts(asked)
            && (Idle(r, conn) && RP.Held(r.received, conn) == EncodeAll(WireTexts(asked)) ==>
                  RP.FramesOf(r, conn) == WireTexts(asked))
  {
    RP.FramesInOrder(threads, steps, conn);
    var r := ReadState(threads, steps);
    FramesAreRequests(asked, RP.Held(r.received, conn));
    hide RP.LegalRun, RP.RunTo, Decode, Frames, WireTexts, EncodeAll, Sendable, RP.PiecesOk;
    assert RP.FramesOf(r, conn) <= Frames(RP.Held(r.received, conn)) <= WireTexts(asked);
  }

  lemma FramesAreRequests(asked: seq<Request>, got: string)
    requires got <= EncodeAll(WireTexts(asked)) && forall r | r in asked :: Sendable(r)
    ensures Frames(got) <= WireTexts(asked)
    ensures got == EncodeAll(WireTexts(asked)) ==> Frames(got) == WireTexts(asked)
  {
    TextsAreNulFree(asked);
    DecodeInvertsEncode(WireTexts(asked), "");
    hide Decode, WireTexts, EncodeAll, Sendable;
    var all := EncodeAll(WireTexts(asked));
    assert all + "" == all && got + all[|got|..] == all;
    FramesGrow(got, all[|got|..]);
  }

  lemma TextsAreNulFree(asked: seq<Request>)
    requires forall r | r in asked :: Sendable(r)
    ensures forall m | m in WireTexts(asked) :: Free(m, NUL)
  {
    WireTextsAre(asked);
    forall i | 0 <= i < |asked|
      ensures Free(WireTexts(asked)[i], NUL)
    {
      assert asked[i] in asked;
      RequestIsNulFree(asked[i]);
    }
    hide WireText, WireTexts, Sendable;
  }

  /** Whatever the calls do, the read half hands over what a session with the
      same requests hands over: some moves of the session make the same calls,
      with the same texts, and throw over the same ones.  What the session has
      still under way are the bytes that are not read, and those in the decoder.
      Once all bytes have been read and nothing is left to do, every request has
      met its fate. */
  lemma ReadsAreArrivals(threads: nat, steps: seq<RP.ReadStep>, conn: nat, s: Session) returns (moves: seq<Move>)
    requires RP.LegalRun(RP.Begin(threads), steps) && ReadsFrom(ReadState(threads, steps), conn, s.asked)
    requires s.fates == [] && s.cut == 0 && forall r | r in s.asked :: Sendable(r)
    ensures var r := ReadState(threads, steps);
            && Possible(s, moves) && OnLink(Moved(s, moves)) && Moved(s, moves).asked == s.asked
            && CallsOf(s, moves) == CallsMade(RP.PiecesOf(r, conn), RP.Held(r.taken, conn))
            && TextsOf(CallsOf(s, moves)) == RP.FramesOf(r, conn)
            && RP.Held(r.decoders, conn) <= Left(Moved(s, moves))
            && RP.Held(r.passed, conn) + Left(Moved(s, moves))[|RP.Held(r.decoders, conn)|..] ==
               EncodeAll(WireTexts(s.asked))
            && (Idle(r, conn) && RP.Held(r.received, conn) == EncodeAll(WireTexts(s.asked)) ==>
                  |Moved(s, moves).fates| == |s.asked|)
  {
    var r := ReadState(threads, steps);
    ReadFacts(threads, steps, conn);
    assert ReadsFrom(r, conn, s.asked);
    ReadIsAsked(r, conn, s.asked);
    hide *;
    moves := AllIsMet(s, RP.PiecesOf(r, conn), RP.Held(r.taken, conn));
  }

  lemma ReadIsAsked(r: RP.State, conn: nat, asked: seq<Request>)
    requires ReadsFrom(r, conn, asked) && RP.Held(r.passed, conn) <= RP.Held(r.received, conn)
    ensures RP.Held(r.passed, conn) <= EncodeAll(WireTexts(asked))
  {
  }

  /** What there is to know about the read half. */
  lemma ReadFacts(threads: nat, steps: seq<RP.ReadStep>, conn: nat)
    requires RP.LegalRun(RP.Begin(threads), steps)
    ensures var r := ReadState(threads, steps);
            var pieces, taken := RP.PiecesOf(r, conn), RP.Held(r.taken, conn);
            && AllEndInNul(pieces)
            && RP.Held(r.passed, conn) == RP.Both(pieces) + taken
            && RP.Held(r.passed, conn) <= RP.Held(r.received, conn)
            && (Idle(r, conn) ==> RP.Held(r.passed, conn) == RP.Held(r.received, conn))
            && RP.FramesOf(r, conn) == Frames(RP.Given(pieces) + taken)
            && RP.Held(r.decoders, conn) == Unfinished(RP.Given(pieces) + taken)
  {
    RP.FramesInOrder(threads, steps, conn);
    hide RP.LegalRun, RP.RunTo, Decode, RP.Given, RP.Both;
  }

  lemma AllIsMet(s: Session, pieces: seq<RP.Piece>, taken: string) returns (moves: seq<Move>)
    requires s.fates == [] && s.cut == 0 && forall r | r in s.asked :: Sendable(r)
    requires AllEndInNul(pieces) && RP.Both(pieces) + taken <= EncodeAll(WireTexts(s.asked))
    ensures var all, held := EncodeAll(WireTexts(s.asked)), Unfinished(RP.Given(pieces) + taken);
            && Possible(s, moves) && OnLink(Moved(s, moves)) && Moved(s, moves).asked == s.asked
            && CallsOf(s, moves) == CallsMade(pieces, taken)
            && TextsOf(CallsOf(s, moves)) == Frames(RP.Given(pieces) + taken)
            && held <= Left(Moved(s, moves))
            && (RP.Both(pieces) + taken) + Left(Moved(s, moves))[|held|..] == all
            && (RP.Both(pieces) + taken == all ==> |Moved(s, moves).fates| == |s.asked|)
  {
    hide Decode, WireText, WireTexts, EncodeAll, Sendable, RP.Given, RP.Both, CallsMade, Possible, Moved, CallsOf,
         Coming, MayEndAt, AllEndInNul, TextsOf;
    ComingFrom(s.asked, 0);
    assert WireTexts(s.asked)[0..] == WireTexts(s.asked);
    assert MayEndAt(s.asked, 0, 0, 0) by {
      StartsOnLink(s.asked);
    }
    moves := AllArrive(s, pieces, taken);
    CallsAreFrames(pieces, taken);
    if RP.Both(pieces) + taken == EncodeAll(WireTexts(s.asked)) {
      DecodeLeavesNoNul("", taken);
      EndOfLink(Moved(s, moves), Unfinished(taken), RP.Both(pieces) + taken);
    }
  }

  lemma StartsOnLink(asked: seq<Request>)
    ensures MayEndAt(asked, 0, 0, 0)
  {
  }

  lemma NulIsLeft(s: Session)
    requires Standing(s)
    ensures |s.fates| < |s.asked| ==> !Free(Left(s), NUL)
  {
    hide WireText, Sendable;
    if |s.fates| < |s.asked| {
      assert Left(s)[|WireText(s.asked[|s.fates|])[s.cut..]|] == NUL;
    }
  }

  /** Nothing is left when the rest of the link is in the decoder. */
  lemma EndOfLink(s: Session, held: string, passed: string)
    requires Standing(s) && Free(held, NUL) && held <= Left(s) && passed + Left(s)[|held|..] == passed
    ensures |s.fates| == |s.asked|
  {
    NulIsLeft(s);
    hide Coming, Sendable, MayEndAt;
    assert |Left(s)| == |held|;
    assert Left(s) == held;
  }

  /** An arrival of a session is one such move. */
  lemma ArrivalIsMove(s: Session, a: Act)
    requires a.Arrive? && SessionRuns.Enabled(s, a)
    ensures var threw := SessionRuns.Called(s, a).thrown.Some?;
            var m := [Move(threw, a.drop, a.cut)];
            && Possible(s, m)
            && CallsOf(s, m) == [Call(NextStep(s, a.orders).message, threw)]
            && SessionRuns.Apply(s, a) == Moved(s, m).(server := SR.Apply(s.server, NextStep(s, a.orders)))
  {
    ArriveIs(s, a);
    var threw := SessionRuns.Called(s, a).thrown.Some?;
    var m := [Move(threw, a.drop, a.cut)];
    assert m[1..] == [] && m[0] == Move(threw, a.drop, a.cut);
    assert NextStep(s, a.orders).message == WireText(s.asked[|s.fates|])[s.cut..];
    hide WireText, Advanced, MayEndAt, SR.Apply, SessionRuns.Called, SessionRuns.Apply, NextStep,
         SessionRuns.Enabled;
  }

  /** Whatever a client of a session has asked can be sent. */
  lemma AskedIsSendable(s: Session, steps: seq<SR.Step>, login: string, passcode: string, acts: seq<Act>)
    requires Begins(s, steps, login, passcode)
    ensures forall r | r in After(s, acts, |acts|).asked :: Sendable(r)
  {
    SessionKeeps(s, steps, login, passcode, acts, |acts|);
    var now := After(s, acts, |acts|);
    hide Begins, After, Sendable;
    forall r | r in now.asked
      ensures Sendable(r)
    {
      var i :| 0 <= i < |now.asked| && now.asked[i] == r;
      assert Filed(now.client, now.asked[i]);
    }
  }

  // ----- Downlink -----

  predicate OrdersAre(frames: seq<Frame>, orders: seq<seq<string>>) {
    |orders| == |frames| && forall k | 0 <= k < |frames| :: IsOrder(orders[k], frames[k].headers.Keys)
  }

  /** The texts of the frames, with the headers in any order. */
  function Printed(frames: seq<Frame>, orders: seq<seq<string>>): (texts: seq<string>)
    requires OrdersAre(frames, orders)
    ensures |texts| == |frames|
  {
    seq(|frames|, k requires 0 <= k < |frames| => JavaPrint(frames[k], orders[k]))
  }

  /** The messages of the elsewhere steps hold no NUL, as no decoder makes one
      that does. */
  predicate FromDecoders(steps: seq<SR.Step>) {
    forall k | 0 <= k < |steps| && steps[k].Process? :: Free(steps[k].message, NUL)
  }

  predicate ElsewhereFromDecoders(acts: seq<Act>) {
    forall k | 0 <= k < |acts| && acts[k].Elsewhere? && acts[k].step.Process? :: Free(acts[k].step.message, NUL)
  }

  ghost predicate AllNulFree(sent: seq<Delivery>) {
    forall i | 0 <= i < |sent| :: NulFree(sent[i].frame)
  }

  lemma ArrivalIsNulFree(s: Session, o: Orders)
    requires HasNext(s) && Sendable(s.asked[|s.fates|])
    ensures Free(NextStep(s, o).message, NUL)
  {
    RequestIsNulFree(s.asked[|s.fates|]);
    hide WireText, Sendable;
  }

  lemma ActSendsNulFree(s: Session, a: Act)
    requires Inv(s) && AllNulFree(s.server.tables.sent)
    requires a.Elsewhere? && a.step.Process? ==> Free(a.step.message, NUL)
    ensures AllNulFree(SessionRuns.Apply(s, a).server.tables.sent)
  {
    if SessionRuns.Enabled(s, a) && a.Elsewhere? {
      StepNulFree(s.server, a.step);
    } else if SessionRuns.Enabled(s, a) && a.Arrive? {
      ArriveIs(s, a);
      assert Filed(s.client, s.asked[|s.fates|]);
      ArrivalIsNulFree(s, a.orders);
      StepNulFree(s.server, NextStep(s, a.orders));
      hide SessionRuns.Apply, SessionRuns.Enabled, SR.Apply, Inv, NulFree, Advanced;
    }
    hide SR.Apply, Inv, NulFree, WireText, CppParse;
  }

  lemma FirstIsNulFree(s: Session, steps: seq<SR.Step>, login: string, passcode: string)
    requires Begins(s, steps, login, passcode) && FromDecoders(steps)
    ensures AllNulFree(s.server.tables.sent)
  {
    hide NulFree, SR.At;
    RunNulFree(steps, |steps|);
  }

  lemma {:induction false} MailIsNulFree(s: Session, steps: seq<SR.Step>, login: string, passcode: string,
                                         acts: seq<Act>, n: nat)
    requires Begins(s, steps, login, passcode) && n <= |acts|
    requires FromDecoders(steps) && ElsewhereFromDecoders(acts)
    ensures AllNulFree(After(s, acts, n).server.tables.sent)
  {
    if n == 0 {
      hide *;
      FirstIsNulFree(s, steps, login, passcode);
      AfterStep(s, acts, 0);
    } else {
      hide Begins, AllNulFree, SessionRuns.Apply, Inv, FromDecoders;
      MailIsNulFree(s, steps, login, passcode, acts, n - 1);
      SessionKeeps(s, steps, login, passcode, acts, n - 1);
      ActSendsNulFree(After(s, acts, n - 1), acts[n - 1]);
    }
  }

  lemma {:induction false} InboxIsIn(sent: seq<Delivery>, me: int)
    requires AllNulFree(sent) && AllPrintable(sent)
    ensures forall f | f in Inbox(sent, me) :: NulFree(f) && Printable(f)
  {
    hide NulFree, Printable;
    if sent != [] {
      InboxIsIn(sent[..|sent| - 1], me);
    }
  }

  lemma PrintsAreNulFree(frames: seq<Frame>, orders: seq<seq<string>>)
    requires OrdersAre(frames, orders) && forall f | f in frames :: NulFree(f)
    ensures forall m | m in Printed(frames, orders) :: Free(m, NUL)
  {
    forall k | 0 <= k < |frames|
      ensures Free(Printed(frames, orders)[k], NUL)
    {
      assert frames[k] in frames;
      PrintedIsNulFree(frames[k], orders[k]);
      hide NulFree, JavaPrint, Free;
    }
    hide NulFree, JavaPrint, Free;
  }

  function WriteState(steps: seq<WP.WriteStep>): WP.State
    requires WP.LegalRun(WP.START, steps)
  {
    WP.RunTo(WP.START, steps)
  }

  /** The connection has queued texts of the first of these frames, and no write
      has failed. */
  predicate Carries(w: WP.State, conn: nat, frames: seq<Frame>, orders: seq<seq<string>>)
    requires OrdersAre(frames, orders)
  {
    conn in w.conns && !w.conns[conn].failed && w.conns[conn].sent <= Printed(frames, orders)
  }

  lemma CarriedIsFound(steps: seq<WP.WriteStep>, conn: nat, frames: seq<Frame>, orders: seq<seq<string>>)
    requires WP.LegalRun(WP.START, steps) && OrdersAre(frames, orders)
             && Carries(WriteState(steps), conn, frames, orders)
    requires forall f | f in frames :: NulFree(f)
    ensures Frames(WriteState(steps).conns[conn].out) <= Printed(frames, orders)
  {
    WP.OutputIsConserved(steps, conn);
    PrintsAreNulFree(frames, orders);
    var w := WriteState(steps).conns[conn];
    hide WP.LegalRun, WP.RunTo, Decode, OrdersAre, Printed, Free, NulFree;
    assert forall m | m in w.sent :: m in Printed(frames, orders);
  }

  /** What the client cuts out of the bytes on its channel, up to each NUL, are
      the frames of its mail from the first one on, each of them as it was sent
      but for the normal form of its body. */
  lemma MailIsRead(s: Session, steps: seq<SR.Step>, login: string, passcode: string, acts: seq<Act>,
                   writes: seq<WP.WriteStep>, conn: nat, orders: seq<seq<string>>, k: nat)
    requires Begins(s, steps, login, passcode) && FromDecoders(steps) && ElsewhereFromDecoders(acts)
    requires WP.LegalRun(WP.START, writes) && OrdersAre(Mail(After(s, acts, |acts|)), orders)
    requires Carries(WriteState(writes), conn, Mail(After(s, acts, |acts|)), orders)
    requires k < |Frames(WriteState(writes).conns[conn].out)|
    ensures var mail := Mail(After(s, acts, |acts|));
            var texts := Frames(WriteState(writes).conns[conn].out);
            && |texts| <= |mail|
            && texts[k] == JavaPrint(mail[k], orders[k])
            && CppParse(texts[k] + [NUL]) == Ok(mail[k].(body := Norm(mail[k].body + "\n") + [NUL]))
  {
    SessionKeeps(s, steps, login, passcode, acts, |acts|);
    MailIsNulFree(s, steps, login, passcode, acts, |acts|);
    var now := After(s, acts, |acts|);
    MailIsGood(now);
    hide Inv, AllNulFree, Begins, After, NulFree, Carries, WriteState, JavaPrint, CppParse, Printable, Decode;
    CarriedIsFound(writes, conn, Mail(now), orders);
    var mail := Mail(now);
    assert mail[k] in mail;
    assert Printed(mail, orders)[k] == JavaPrint(mail[k], orders[k]);
    ServerToClient(mail[k], orders[k]);
  }

  lemma MailIsGood(s: Session)
    requires Inv(s) && AllNulFree(s.server.tables.sent)
    ensures forall f | f in Mail(s) :: NulFree(f) && Printable(f)
  {
    InboxIsIn(s.server.tables.sent, s.me);
    hide NulFree, Printable;
  }
}
