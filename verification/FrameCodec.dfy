/** The decoder with its growing byte array, the encoder, and the client's
    reading loop. */
module FrameCodec {
  import opened Text

  /** What one byte does to the bytes collected so far. */
  function DecodeStep(acc: string, b: char): (string, Option<string>) {
    if b == NUL then ("", Some(acc)) else (acc + [b], None)
  }

  /** What a run of bytes does: the bytes left over and the frames found. */
  function Decode(acc: string, input: string): (string, seq<string>)
    decreases |input|
  {
    if input == "" then (acc, [])
    else
      var (acc', found) := DecodeStep(acc, input[0]);
      var (rest, frames) := Decode(acc', input[1..]);
      (rest, One(found) + frames)
  }

  function One(found: Option<string>): seq<string> {
    match found
    case Some(f) => [f]
    case None => []
  }

  function Encode(message: string): string {
    message + [NUL]
  }

  function EncodeAll(messages: seq<string>): string {
    if messages == [] then "" else Encode(messages[0]) + EncodeAll(messages[1..])
  }

  /** The NUL-delimited frames of a byte stream, and its unfinished tail. */
  function Frames(stream: string): seq<string> {
    Decode("", stream).1
  }

  function Unfinished(stream: string): string {
    Decode("", stream).0
  }

  const INITIAL := 1024

  function Max(a: int, b: int): int {
    if a < b then b else a
  }

  class FrameEncoderDecoder {
    var bytes: array<char>
    var len: nat
    ghost var copied: nat   // bytes moved by all Arrays.copyOf calls so far
    ghost var longest: nat  // length of the longest frame seen so far, finished or not

    ghost predicate Valid()
      reads this, bytes
    {
      && len <= bytes.Length
      && len <= longest
      && INITIAL <= bytes.Length <= Max(INITIAL, 2 * longest)
      && copied == bytes.Length - INITIAL
    }

    /** The bytes of the frame that is not finished yet. */
    ghost function Pending(): string
      requires Valid()
      reads this, bytes
    {
      bytes[..len]
    }

    constructor ()
      ensures Valid() && fresh(bytes) && Pending() == "" && longest == 0 && copied == 0
    {
      bytes := new char[INITIAL];
      len := 0;
      copied, longest := 0, 0;
    }

    method DecodeNextByte(nextByte: char) returns (r: Option<string>)
      requires Valid()
      modifies this, bytes
      ensures Valid() && (bytes == old(bytes) || fresh(bytes))
      ensures (Pending(), r) == DecodeStep(old(Pending()), nextByte)
      ensures longest == Max(old(longest), |Pending()|)
      ensures bytes.Length >= old(bytes.Length)
    {
      if nextByte == NUL {
        r := PopString();
        return;
      }
      PushByte(nextByte);
      r := None;
    }

    method PushByte(nextByte: char)
      requires Valid()
      modifies this, bytes
      ensures Valid() && (bytes == old(bytes) || fresh(bytes))
      ensures Pending() == old(Pending()) + [nextByte]
      ensures longest == Max(old(longest), |Pending()|)
      ensures bytes.Length >= old(bytes.Length)
    {
      ghost var before := Pending();
      if len >= bytes.Length {
        var grown := new char[len * 2];
        var i := 0;
        while i < len
          invariant 0 <= i <= len <= bytes.Length
          invariant grown.Length == 2 * len && fresh(grown)
          invariant grown[..i] == bytes[..i]
          modifies grown
        {
          grown[i] := bytes[i];
          i := i + 1;
        }
        copied := copied + len;
        bytes := grown;
      }
      assert bytes[..len] == before;
      bytes[len] := nextByte;
      len := len + 1;
      longest := Max(longest, len);
      assert bytes[..len] == before + [nextByte];
    }

    method PopString() returns (r: Option<string>)
      requires Valid()
      modifies `len
      ensures Valid() && Pending() == "" && r == Some(old(Pending()))
    {
      var result := bytes[..len];
      len := 0;
      r := Some(result);
    }

    /** The loop of a read task: the decoder is fed one byte at a time, and
        every frame found is handed on. */
    method Feed(buf: string) returns (frames: seq<string>)
      requires Valid()
      modifies this, bytes
      ensures Valid() && (bytes == old(bytes) || fresh(bytes))
      ensures (Pending(), frames) == Decode(old(Pending()), buf)
      ensures bytes.Length >= old(bytes.Length)
      ensures longest >= old(longest) && (forall f | f in frames :: |f| <= longest)
    {
      frames := [];
      var i := 0;
      assert buf[..0] == "";
      while i < |buf|
        invariant 0 <= i <= |buf|
        invariant Valid() && (bytes == old(bytes) || fresh(bytes))
        invariant bytes.Length >= old(bytes.Length) && longest >= old(longest)
        invariant forall f | f in frames :: |f| <= longest
        invariant (Pending(), frames) == Decode(old(Pending()), buf[..i])
        modifies this, bytes
      {
        DecodeNext(old(Pending()), buf[..i], buf[i]);
        assert buf[..i] + [buf[i]] == buf[..i + 1];
        var nextMessage := DecodeNextByte(buf[i]);
        if nextMessage.Some? {
          frames := frames + [nextMessage.value];
        }
        i := i + 1;
      }
      assert buf[..i] == buf;
    }
  }

  // ----- Properties of the codec -----

  lemma {:induction false} DecodeAppend(acc: string, a: string, b: string)
    ensures var (mid, first) := Decode(acc, a);
            var (rest, second) := Decode(mid, b);
            Decode(acc, a + b) == (rest, first + second)
    decreases |a|
  {
    if a == "" {
      assert a + b == b;
      assert [] + Decode(acc, b).1 == Decode(acc, b).1;
    } else {
      var (acc', found) := DecodeStep(acc, a[0]);
      DecodeAppend(acc', a[1..], b);
      assert (a + b)[1..] == a[1..] + b;
      var (mid, first) := Decode(acc', a[1..]);
      Assoc(One(found), first, Decode(mid, b).1);
    }
  }

  /** One more byte. */
  lemma DecodeNext(acc: string, s: string, b: char)
    ensures var (mid, frames) := Decode(acc, s);
            Decode(acc, s + [b]) ==
            if b == NUL then ("", frames + [mid]) else (mid + [b], frames)
  {
    DecodeAppend(acc, s, [b]);
    var (mid, frames) := Decode(acc, s);
    var (acc', found) := DecodeStep(mid, b);
    assert [b][0] == b && [b][1..] == "";
    assert Decode(acc', "") == (acc', []);
    assert One(found) + [] == One(found);
    assert Decode(mid, [b]) == (acc', One(found));
    assert frames + [] == frames;
  }

  lemma {:induction false} DecodePlain(acc: string, s: string)
    requires Free(s, NUL)
    ensures Decode(acc, s) == (acc + s, [])
    decreases |s|
  {
    if s == "" {
      assert acc + s == acc;
    } else {
      var n := |s| - 1;
      DecodePlain(acc, s[..n]);
      DecodeNext(acc, s[..n], s[n]);
      assert s[..n] + [s[n]] == s;
      Assoc(acc, s[..n], [s[n]]);
    }
  }

  lemma DecodeOne(m: string)
    requires Free(m, NUL)
    ensures Decode("", Encode(m)) == ("", [m])
  {
    DecodePlain("", m);
    DecodeNext("", m, NUL);
    assert "" + m == m && [] + [m] == [m];
  }

  /** Any NUL-free messages come back, and only the tail is left over. */
  lemma {:induction false} DecodeInvertsEncode(messages: seq<string>, tail: string)
    requires forall m | m in messages :: Free(m, NUL)
    requires Free(tail, NUL)
    ensures Decode("", EncodeAll(messages) + tail) == (tail, messages)
  {
    if messages == [] {
      DecodePlain("", tail);
      assert EncodeAll(messages) + tail == tail && "" + tail == tail;
    } else {
      var m, later := messages[0], EncodeAll(messages[1..]) + tail;
      DecodeInvertsEncode(messages[1..], tail);
      DecodeOne(m);
      DecodeAppend("", Encode(m), later);
      Assoc(Encode(m), EncodeAll(messages[1..]), tail);
      assert [m] + messages[1..] == messages;
    }
  }

  /** What has been read so far yields a prefix of what will be read. */
  lemma FramesGrow(a: string, b: string)
    ensures Frames(a) <= Frames(a + b)
  {
    DecodeAppend("", a, b);
  }

  lemma {:induction false} DecodeLeavesNoNul(acc: string, s: string)
    requires Free(acc, NUL)
    ensures Free(Decode(acc, s).0, NUL)
    ensures forall f | f in Decode(acc, s).1 :: Free(f, NUL)
    decreases |s|
  {
    if s != "" {
      DecodeLeavesNoNul(DecodeStep(acc, s[0]).0, s[1..]);
    }
  }

  /** The other way round: a stream is the encoding of its frames, followed by
      the tail.  So no byte is lost, repeated or moved to another frame. */
  lemma {:induction false} EncodeInvertsDecode(acc: string, s: string)
    ensures var (rest, frames) := Decode(acc, s);
            EncodeAll(frames) + rest == acc + s
    decreases |s|
  {
    if s == "" {
      assert acc + s == acc && EncodeAll([]) + acc == acc;
    } else {
      var c, t := s[0], s[1..];
      var (acc', found) := DecodeStep(acc, c);
      EncodeInvertsDecode(acc', t);
      var (rest, frames) := Decode(acc', t);
      assert s == [c] + t;
      Assoc(acc, [c], t);
      EncodeOneMore(found, frames);
      if c == NUL {
        Assoc(Encode(acc), EncodeAll(frames), rest);
        assert "" + t == t;
      }
    }
  }

  lemma EncodeOneMore(found: Option<string>, frames: seq<string>)
    ensures EncodeAll(One(found) + frames) ==
            match found case None => EncodeAll(frames) case Some(f) => Encode(f) + EncodeAll(frames)
  {
    if found.None? {
      assert One(found) + frames == frames;
    } else {
      assert (One(found) + frames)[1..] == frames;
    }
  }

  // ----- The client's side of the wire -----

  /** Reads bytes up to and including the delimiter; the NUL stays at the end
      of the text.  False when the stream ends first. */
  method GetFrameAscii(input: string) returns (ok: bool, frame: string, rest: string)
    ensures ok <==> !Free(input, NUL)
    ensures ok ==> frame != "" && Free(frame[..|frame| - 1], NUL) && frame[|frame| - 1] == NUL
    ensures ok ==> input == frame + rest
  {
    frame := "";
    var i := 0;
    var ch := 'x';
    while i == 0 || ch != NUL
      invariant 0 <= i <= |input|
      invariant i > 0 ==> ch == input[i - 1]
      invariant Free(frame, NUL)
      invariant ch != NUL ==> frame == input[..i]
      invariant ch == NUL ==> i > 0 && frame == input[..i - 1]
      decreases |input| - i
    {
      if i == |input| {
        return false, frame, "";
      }
      ch := input[i];
      if ch != NUL {
        frame := frame + [ch];
      }
      i := i + 1;
    }
    frame := frame + [ch];
    ok, rest := true, input[i..];
  }

  /** A text that ends at its first NUL is the first frame of any stream that
      begins with it. */
  lemma FirstFrame(frame: string, rest: string)
    requires frame != "" && Free(frame[..|frame| - 1], NUL) && frame[|frame| - 1] == NUL
    ensures Frames(frame + rest) == [frame[..|frame| - 1]] + Frames(rest)
  {
    var m := frame[..|frame| - 1];
    assert frame == Encode(m);
    DecodeOne(m);
    DecodeAppend("", frame, rest);
  }
}
