/** The line splitters.  Both StompFrame classes carry the same one, which
    keeps a "\n" token for the end of a line and a second one when a blank
    line follows; StompProtocol has one that keeps the texts only. */
module Splitter {
  import opened Text

  /** A list entry: the literal "\n", or the text of a line.  The Java code
      tells them apart by the identity of the literal, the C++ code by value;
      TokenShapes shows that both tests agree, as no text is "\n". */
  datatype Token = Newline | Line(text: string)

  function Tokens(s: string, d: char): seq<Token>
    decreases |s|
  {
    if s == "" then []
    else
      var i := IndexOf(s, d);
      if i == |s| then [Line(s)]
      else LineTokens(s[..i], i + 1 < |s| && s[i + 1] == d) + Tokens(s[i + 1..], d)
  }

  function LineTokens(line: string, blankFollows: bool): seq<Token> {
    if line == "" then []
    else if blankFollows then [Line(line), Newline, Newline]
    else [Line(line), Newline]
  }

  /** What StompProtocol::split yields. */
  function Fields(s: string, d: char): seq<string>
    decreases |s|
  {
    if s == "" then []
    else
      var i := IndexOf(s, d);
      if i == |s| then [s]
      else (if i == 0 then [] else [s[..i]]) + Fields(s[i + 1..], d)
  }

  /** Tokens with the entries already found in front. */
  function TokensAfter(found: seq<Token>, s: string, d: char): seq<Token>
    decreases |s|
  {
    if s == "" then found
    else
      var i := IndexOf(s, d);
      if i == |s| then found + [Line(s)]
      else TokensAfter(found + LineTokens(s[..i], i + 1 < |s| && s[i + 1] == d), s[i + 1..], d)
  }

  lemma {:induction false} TokensAfterAppends(found: seq<Token>, s: string, d: char)
    ensures TokensAfter(found, s, d) == found + Tokens(s, d)
    decreases |s|
  {
    if s == "" {
    } else {
      var i := IndexOf(s, d);
      if i < |s| {
        var entry := LineTokens(s[..i], i + 1 < |s| && s[i + 1] == d);
        TokensAfterAppends(found + entry, s[i + 1..], d);
        Assoc(found, entry, Tokens(s[i + 1..], d));
      }
    }
  }

  /** The entries for one line, pushed one by one. */
  method PushLine(before: seq<Token>, part: string, blankFollows: bool) returns (parts: seq<Token>)
    ensures parts == before + LineTokens(part, blankFollows)
  {
    parts := before;
    if |part| > 0 {
      parts := parts + [Line(part)];
      parts := parts + [Newline];
      if blankFollows {
        parts := parts + [Newline];
      }
    }
  }

  method Split(line: string, delimiter: char) returns (parts: seq<Token>)
    ensures parts == Tokens(line, delimiter)
  {
    var rest := line;
    parts := [];
    while |rest| > 0
      invariant TokensAfter(parts, rest, delimiter) == TokensAfter([], line, delimiter)
      decreases |rest|
    {
      ghost var before := parts;
      var part := "";
      var i := 0;
      while i < |rest|
        invariant 0 <= i <= |rest| && part == rest[..i]
        invariant forall k | 0 <= k < i :: rest[k] != delimiter
        invariant parts == before
      {
        if delimiter == rest[i] {
          var blankFollows := i != |rest| - 1 && delimiter == rest[i + 1];
          parts := PushLine(parts, part, blankFollows);
          break;
        } else {
          part := part + [rest[i]];
          assert part == rest[..i + 1];
        }
        i := i + 1;
      }
      IndexOfUnique(rest, delimiter, i);
      if i == |rest| {
        assert part == rest;
        parts := parts + [Line(part)];
        rest := "";
      } else {
        rest := rest[i + 1..];
      }
    }
    TokensAfterAppends([], line, delimiter);
  }

  function FieldsAfter(found: seq<string>, s: string, d: char): seq<string>
    decreases |s|
  {
    if s == "" then found
    else
      var i := IndexOf(s, d);
      if i == |s| then found + [s]
      else FieldsAfter(if i == 0 then found else found + [s[..i]], s[i + 1..], d)
  }

  lemma {:induction false} FieldsAfterAppends(found: seq<string>, s: string, d: char)
    ensures FieldsAfter(found, s, d) == found + Fields(s, d)
    decreases |s|
  {
    if s == "" {
    } else {
      var i := IndexOf(s, d);
      if i < |s| {
        var entry := if i == 0 then [] else [s[..i]];
        FieldsAfterAppends(found + entry, s[i + 1..], d);
        Assoc(found, entry, Fields(s[i + 1..], d));
        assert found + [] == found;
      }
    }
  }

  method ProtocolSplit(line: string, delimiter: char) returns (parts: seq<string>)
    ensures parts == Fields(line, delimiter)
  {
    var rest := line;
    parts := [];
    while |rest| > 0
      invariant FieldsAfter(parts, rest, delimiter) == FieldsAfter([], line, delimiter)
      decreases |rest|
    {
      ghost var before := parts;
      var part := "";
      var i := 0;
      while i < |rest|
        invariant 0 <= i <= |rest| && part == rest[..i]
        invariant forall k | 0 <= k < i :: rest[k] != delimiter
        invariant parts == before
      {
        if delimiter == rest[i] {
          if |part| > 0 {
            parts := parts + [part];
          }
          break;
        } else {
          part := part + [rest[i]];
        }
        i := i + 1;
      }
      IndexOfUnique(rest, delimiter, i);
      if i == |rest| {
        assert part == rest;
        parts := parts + [part];
        rest := "";
      } else {
        rest := rest[i + 1..];
      }
    }
    FieldsAfterAppends([], line, delimiter);
  }

  // ----- The normal form of a text -----

  function DropLeading(s: string): string {
    if s != "" && s[0] == '\n' then DropLeading(s[1..]) else s
  }

  function Squash(s: string): string {
    if |s| < 3 then s
    else if s[0] == '\n' && s[1] == '\n' && s[2] == '\n' then Squash(s[1..])
    else [s[0]] + Squash(s[1..])
  }

  /** No leading newlines, and at most two newlines in a row. */
  function Norm(s: string): string {
    Squash(DropLeading(s))
  }

  predicate StartsLine(r: string) {
    r != "" && r[0] == '\n'
  }

  function LineEnd(blankFollows: bool): string {
    if blankFollows then "\n\n" else "\n"
  }

  lemma {:induction false} SquashLine(l: string, x: string)
    requires Free(l, '\n')
    ensures Squash(l + x) == l + Squash(x)
  {
    if l == "" {
      assert l + x == x;
      assert l + Squash(x) == Squash(x);
    } else {
      var t := l[1..];
      SquashLine(t, x);
      assert (l + x)[1..] == t + x;
      assert l == [l[0]] + t;
      Assoc([l[0]], t, Squash(x));
      if |l + x| < 3 {
        assert Squash(t + x) == t + x;
        assert l + x == [l[0]] + (t + x);
      }
    }
  }

  lemma {:induction false} SquashNewlines(r: string)
    ensures Squash("\n" + r) == LineEnd(StartsLine(r)) + Norm(r)
    decreases |r|
  {
    assert ("\n" + r)[1..] == r;
    if StartsLine(r) {
      var q := r[1..];
      SquashNewlines(q);
      assert r == "\n" + q;
      assert "\n" + ("\n" + Norm(q)) == "\n\n" + Norm(q);
    }
  }

  lemma NormOfLine(l: string, r: string)
    requires l != "" && Free(l, '\n')
    ensures Norm(l + ("\n" + r)) == l + (LineEnd(StartsLine(r)) + Norm(r))
  {
    SquashNewlines(r);
    SquashLine(l, "\n" + r);
    assert (l + ("\n" + r))[0] == l[0];
  }

  lemma NormOfText(s: string)
    requires Free(s, '\n')
    ensures Norm(s) == s
  {
    SquashLine(s, "");
    assert s + "" == s;
  }

  lemma {:induction false} NormNoLeading(s: string)
    ensures !StartsLine(Norm(s))
  {
    if StartsLine(s) {
      NormNoLeading(s[1..]);
    }
  }

  // ----- The closed form of the splitter for newline -----

  function Spell(tokens: seq<Token>): string {
    if tokens == [] then "" else SpellOne(tokens[0]) + Spell(tokens[1..])
  }

  function SpellOne(t: Token): string {
    match t
    case Newline => "\n"
    case Line(text) => text
  }

  lemma {:induction false} SpellAppend(a: seq<Token>, b: seq<Token>)
    ensures Spell(a + b) == Spell(a) + Spell(b)
  {
    if a == [] {
      assert a + b == b;
    } else {
      SpellAppend(a[1..], b);
      assert (a + b)[1..] == a[1..] + b;
      Assoc(SpellOne(a[0]), Spell(a[1..]), Spell(b));
    }
  }

  lemma SpellLine(l: string, blank: bool)
    requires l != ""
    ensures Spell(LineTokens(l, blank)) == l + LineEnd(blank)
  {
    assert Spell([Newline]) == "\n" by {
      assert [Newline][1..] == [];
    }
    assert Spell([Newline, Newline]) == "\n\n" by {
      assert [Newline, Newline][1..] == [Newline];
    }
    var t := LineTokens(l, blank);
    assert t[1..] == if blank then [Newline, Newline] else [Newline];
  }

  /** The tokens of a text that begins with a whole line. */
  lemma TokensOfLine(l: string, r: string)
    requires Free(l, '\n')
    ensures Tokens(l + ("\n" + r), '\n') == LineTokens(l, StartsLine(r)) + Tokens(r, '\n')
  {
    var s := l + ("\n" + r);
    assert s == l + ['\n'] + r;
    IndexOfAfter(l, '\n', r);
    assert s[..|l|] == l && s[|l| + 1..] == r;
    assert r != "" ==> s[|l| + 1] == r[0];
  }

  /** A text has a first whole line, or no newline at all. */
  lemma FirstLine(s: string) returns (l: string, r: string)
    requires s != "" && IndexOf(s, '\n') < |s|
    ensures Free(l, '\n') && s == l + ("\n" + r) && |r| < |s|
  {
    var i := IndexOf(s, '\n');
    l, r := s[..i], s[i + 1..];
  }

  /** The tokens spell the normal form of the input. */
  lemma {:induction false} TokensSpellNorm(s: string)
    ensures Spell(Tokens(s, '\n')) == Norm(s)
    decreases |s|
  {
    if s == "" {
    } else if IndexOf(s, '\n') == |s| {
      NormOfText(s);
      assert Spell([Line(s)]) == s;
    } else {
      var l, r := FirstLine(s);
      TokensSpellNorm(r);
      TokensOfLine(l, r);
      var line := LineTokens(l, StartsLine(r));
      SpellAppend(line, Tokens(r, '\n'));
      if l == "" {
        assert s[1..] == r;
        assert line + Tokens(r, '\n') == Tokens(r, '\n');
      } else {
        SpellLine(l, StartsLine(r));
        NormOfLine(l, r);
        Assoc(l, LineEnd(StartsLine(r)), Norm(r));
      }
    }
  }

  /** A text token is not empty and has no newline, and a text comes first. */
  lemma {:induction false} TokenShapes(s: string)
    ensures forall t | t in Tokens(s, '\n') && t.Line? :: t.text != "" && Free(t.text, '\n')
    ensures Tokens(s, '\n') != [] ==> Tokens(s, '\n')[0].Line?
    decreases |s|
  {
    if s == "" {
    } else if IndexOf(s, '\n') == |s| {
    } else {
      TokenShapes(s[IndexOf(s, '\n') + 1..]);
    }
  }

  /** Splitting the spelled-out tokens gives the same tokens again. */
  lemma {:induction false} SplitIsStable(s: string)
    ensures Tokens(Norm(s), '\n') == Tokens(s, '\n')
    decreases |s|
  {
    if s == "" {
    } else if IndexOf(s, '\n') == |s| {
      NormOfText(s);
    } else {
      var l, r := FirstLine(s);
      SplitIsStable(r);
      TokensOfLine(l, r);
      if l == "" {
        assert s[1..] == r;
        assert LineTokens(l, StartsLine(r)) + Tokens(r, '\n') == Tokens(r, '\n');
      } else {
        NormOfLine(l, r);
        NormNoLeading(r);
        TokensOfNormLine(l, StartsLine(r), Norm(r));
      }
    }
  }

  lemma TokensOfNormLine(l: string, blank: bool, r: string)
    requires l != "" && Free(l, '\n') && !StartsLine(r)
    ensures Tokens(l + (LineEnd(blank) + r), '\n') == LineTokens(l, blank) + Tokens(r, '\n')
  {
    if blank {
      assert "\n\n" + r == "\n" + ("\n" + r);
      TokensOfLine(l, "\n" + r);
      TokensOfLine("", r);
      assert "" + ("\n" + r) == "\n" + r;
      assert LineTokens("", false) + Tokens(r, '\n') == Tokens(r, '\n');
    } else {
      TokensOfLine(l, r);
    }
  }

  function Texts(tokens: seq<Token>): seq<string> {
    if tokens == [] then [] else TextOf(tokens[0]) + Texts(tokens[1..])
  }

  function TextOf(t: Token): seq<string> {
    match t
    case Newline => []
    case Line(text) => [text]
  }

  lemma {:induction false} TextsAppend(a: seq<Token>, b: seq<Token>)
    ensures Texts(a + b) == Texts(a) + Texts(b)
  {
    if a == [] {
      assert a + b == b;
    } else {
      TextsAppend(a[1..], b);
      assert (a + b)[1..] == a[1..] + b;
      Assoc(TextOf(a[0]), Texts(a[1..]), Texts(b));
    }
  }

  lemma TextsOfLine(l: string, blank: bool)
    ensures Texts(LineTokens(l, blank)) == if l == "" then [] else [l]
  {
    assert Texts([Newline, Newline]) == Texts([Newline]) == [];
    if l != "" {
      var t := LineTokens(l, blank);
      assert t[1..] == if blank then [Newline, Newline] else [Newline];
    }
  }

  /** StompProtocol::split yields the texts of StompFrame::split. */
  lemma {:induction false} FieldsAreTexts(s: string)
    ensures Fields(s, '\n') == Texts(Tokens(s, '\n'))
    decreases |s|
  {
    if s == "" {
    } else {
      var i := IndexOf(s, '\n');
      if i == |s| {
        assert Texts([Line(s)]) == [s];
      } else {
        var blank := i + 1 < |s| && s[i + 1] == '\n';
        FieldsAreTexts(s[i + 1..]);
        TextsAppend(LineTokens(s[..i], blank), Tokens(s[i + 1..], '\n'));
        TextsOfLine(s[..i], blank);
      }
    }
  }

  // ----- What the normal form means -----

  predicate TripleAt(s: string, k: nat) {
    k + 2 < |s| && s[k] == '\n' && s[k + 1] == '\n' && s[k + 2] == '\n'
  }

  ghost predicate Normal(s: string) {
    !StartsLine(s) && forall k: nat :: !TripleAt(s, k)
  }

  function Letters(s: string): string {
    if s == "" then "" else (if s[0] == '\n' then "" else [s[0]]) + Letters(s[1..])
  }

  lemma {:induction false} SquashShape(s: string)
    ensures s != "" ==> Squash(s) != "" && Squash(s)[0] == s[0]
    ensures |s| > 1 ==> |Squash(s)| > 1
    ensures |s| > 1 && s[1] != '\n' ==> Squash(s)[1] != '\n'
    ensures |s| > 2 && s[2] != '\n' ==> |Squash(s)| > 2 && Squash(s)[2] != '\n'
    ensures forall k: nat :: !TripleAt(Squash(s), k)
    ensures Letters(Squash(s)) == Letters(s)
  {
    if |s| >= 3 {
      var t := s[1..];
      SquashShape(t);
      if !TripleAt(s, 0) {
        var q := Squash(t);
        assert Squash(s) == [s[0]] + q && Squash(s)[1..] == q;
        assert !TripleAt(Squash(s), 0);
        forall k: nat
          ensures !TripleAt(Squash(s), k)
        {
          if k > 0 {
            assert !TripleAt(q, k - 1);
          }
        }
      }
    }
  }

  lemma {:induction false} NormalIsFixed(s: string)
    requires forall k: nat :: !TripleAt(s, k)
    ensures Squash(s) == s
  {
    if |s| >= 3 {
      var t := s[1..];
      forall k: nat
        ensures !TripleAt(t, k)
      {
        assert !TripleAt(s, k + 1);
      }
      NormalIsFixed(t);
      assert !TripleAt(s, 0);
      assert s == [s[0]] + t;
    }
  }

  lemma {:induction false} LettersOfDrop(s: string)
    ensures Letters(DropLeading(s)) == Letters(s)
  {
    if StartsLine(s) {
      LettersOfDrop(s[1..]);
    }
  }

  /** Norm yields a normal text, keeps all other characters in order, and
      changes nothing exactly when its input was normal already. */
  lemma NormIsNormal(s: string)
    ensures Normal(Norm(s))
    ensures Letters(Norm(s)) == Letters(s)
    ensures Norm(s) == s <==> Normal(s)
  {
    SquashShape(DropLeading(s));
    NormNoLeading(s);
    LettersOfDrop(s);
    if Normal(s) {
      NormalIsFixed(s);
    }
  }

  lemma {:induction false} SquashSnoc(s: string, c: char)
    requires c != '\n'
    ensures Squash(s + [c]) == Squash(s) + [c]
  {
    if s != "" {
      var t := s[1..];
      SquashSnoc(t, c);
      assert (s + [c])[1..] == t + [c];
      assert s == [s[0]] + t;
      Assoc([s[0]], Squash(t), [c]);
    }
  }

  lemma {:induction false} NormSnoc(s: string, c: char)
    requires c != '\n'
    ensures Norm(s + [c]) == Norm(s) + [c]
  {
    if StartsLine(s) {
      NormSnoc(s[1..], c);
      assert (s + [c])[1..] == s[1..] + [c];
    } else {
      SquashSnoc(s, c);
      assert DropLeading(s + [c]) == s + [c];
    }
  }
}
