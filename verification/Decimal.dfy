/** Decimal numerals: to_string and stoi of C++, parseInt of Java. */
module Decimal {
  import opened Text

  const INT_MIN := -0x8000_0000
  const INT_MAX := 0x7FFF_FFFF

  predicate IsInt(n: int) {
    INT_MIN <= n <= INT_MAX
  }

  predicate IsDigit(c: char) {
    '0' <= c <= '9'
  }

  function Digit(d: nat): (c: char)
    requires d < 10
    ensures IsDigit(c) && DigitValue(c) == d
  {
    ('0' as int + d) as char
  }

  function DigitValue(c: char): nat
    requires IsDigit(c)
  {
    c as int - '0' as int
  }

  predicate AllDigits(s: string) {
    forall k | 0 <= k < |s| :: IsDigit(s[k])
  }

  function Digits(n: nat): (s: string)
    ensures s != "" && AllDigits(s)
  {
    if n < 10 then [Digit(n)] else Digits(n / 10) + [Digit(n % 10)]
  }

  function ToString(n: int): string {
    if n < 0 then "-" + Digits(-n) else Digits(n)
  }

  function Number(s: string): nat
    requires AllDigits(s)
  {
    if s == "" then 0 else 10 * Number(s[..|s| - 1]) + DigitValue(s[|s| - 1])
  }

  lemma {:induction false} NumberOfDigits(n: nat)
    ensures Number(Digits(n)) == n
  {
    if n < 10 {
      assert [Digit(n)][..0] == "";
    } else {
      NumberOfDigits(n / 10);
      assert Digits(n)[..|Digits(n)| - 1] == Digits(n / 10);
    }
  }

  datatype NumberError = InvalidArgument | OutOfIntRange | NumberFormat

  predicate IsSpace(c: char) {
    c == ' ' || '\t' as int <= c as int <= '\r' as int
  }

  function SkipSpaces(s: string, i: nat): (r: nat)
    requires i <= |s|
    ensures i <= r <= |s|
    decreases |s| - i
  {
    if i < |s| && IsSpace(s[i]) then SkipSpaces(s, i + 1) else i
  }

  function SkipDigits(s: string, i: nat): (r: nat)
    requires i <= |s|
    ensures i <= r <= |s|
    ensures forall k | i <= k < r :: IsDigit(s[k])
    ensures r < |s| ==> !IsDigit(s[r])
    decreases |s| - i
  {
    if i < |s| && IsDigit(s[i]) then SkipDigits(s, i + 1) else i
  }

  predicate HasSign(s: string, i: nat) {
    i < |s| && (s[i] == '-' || s[i] == '+')
  }

  /** std::stoi: leading blanks, a sign, and as many digits as follow. */
  function Stoi(s: string): Result<int, NumberError> {
    var i := SkipSpaces(s, 0);
    var start := if HasSign(s, i) then i + 1 else i;
    var end := SkipDigits(s, start);
    if start == end then Err(InvalidArgument)
    else
      var v: int := Number(s[start..end]);
      var n := if HasSign(s, i) && s[i] == '-' then -v else v;
      if IsInt(n) then Ok(n) else Err(OutOfIntRange)
  }

  /** Integer.parseInt: a sign and nothing but digits. */
  function ParseInt(s: string): Result<int, NumberError> {
    var start := if HasSign(s, 0) then 1 else 0;
    if start < |s| && AllDigits(s[start..]) then
      var v: int := Number(s[start..]);
      var n := if HasSign(s, 0) && s[0] == '-' then -v else v;
      if IsInt(n) then Ok(n) else Err(NumberFormat)
    else Err(NumberFormat)
  }

  lemma SkipAllDigits(s: string, i: nat)
    requires i <= |s| && forall k | i <= k < |s| :: IsDigit(s[k])
    ensures SkipDigits(s, i) == |s|
  {
  }

  /** Both readers invert the printer on every int. */
  lemma ReadBack(n: int)
    requires IsInt(n)
    ensures Stoi(ToString(n)) == Ok(n)
    ensures ParseInt(ToString(n)) == Ok(n)
  {
    var s := ToString(n);
    if n < 0 {
      var d := Digits(-n);
      assert s[0] == '-' && s[1..] == d && s[1..|s|] == d;
      assert forall k | 1 <= k < |s| :: s[k] == d[k - 1];
      SkipAllDigits(s, 1);
      NumberOfDigits(-n);
    } else {
      assert s[0..] == s && s[0..|s|] == s;
      assert IsDigit(s[0]) && !IsSpace(s[0]) && !HasSign(s, 0);
      SkipAllDigits(s, 0);
      NumberOfDigits(n);
    }
  }

  lemma ToStringInjective(a: int, b: int)
    requires IsInt(a) && IsInt(b) && ToString(a) == ToString(b)
    ensures a == b
  {
    ReadBack(a);
    ReadBack(b);
  }

  /** Numerals hold no character that would break a header line. */
  lemma {:induction false} ToStringPlain(n: int)
    ensures Free(ToString(n), '\n') && Free(ToString(n), NUL)
    ensures ToString(n) != ""
  {
    var d := Digits(if n < 0 then -n else n);
    assert AllDigits(d);
  }

  // ----- What the readers accept -----

  predicate AllSpaces(s: string) {
    forall k | 0 <= k < |s| :: IsSpace(s[k])
  }

  /** A sign, which may be missing, and digits spell this number. */
  predicate Spells(sign: string, digits: string, n: int) {
    && digits != "" && AllDigits(digits)
    && ((sign == "-" && n == 0 - Number(digits)) || ((sign == "" || sign == "+") && n == Number(digits)))
  }

  lemma SignOrDigits(sign: string, digits: string, n: int)
    requires Spells(sign, digits, n)
    ensures HasSign(sign + digits, 0) <==> sign != ""
    ensures sign + digits != "" && (sign + digits)[|sign|..] == digits
    ensures (sign + digits)[0] == (if sign != "" then sign[0] else digits[0])
  {
  }

  /** parseInt takes an int with or without a sign, and nothing else. */
  lemma ParseIntIff(s: string, n: int)
    ensures ParseInt(s) == Ok(n) <==> IsInt(n) && exists sign, digits :: s == sign + digits && Spells(sign, digits, n)
    ensures ParseInt(s).Err? ==> ParseInt(s).error == NumberFormat
  {
    if ParseInt(s) == Ok(n) {
      var sign := if HasSign(s, 0) then [s[0]] else "";
      var digits := s[|sign|..];
      assert s == sign + digits && Spells(sign, digits, n);
    }
    if sign, digits :| s == sign + digits && Spells(sign, digits, n) {
      SignOrDigits(sign, digits, n);
    }
  }

  lemma {:induction false} SpacesSkipped(s: string, i: nat)
    requires i <= |s|
    ensures forall k | i <= k < SkipSpaces(s, i) :: IsSpace(s[k])
    ensures SkipSpaces(s, i) < |s| ==> !IsSpace(s[SkipSpaces(s, i)])
    decreases |s| - i
  {
    if i < |s| && IsSpace(s[i]) {
      SpacesSkipped(s, i + 1);
    }
  }

  /** stoi takes what it can: behind blanks a number, up to a rest that begins
      with no digit. */
  ghost predicate StartsWith(s: string, n: int) {
    exists blanks, sign, digits, rest ::
      && s == blanks + (sign + (digits + rest)) && AllSpaces(blanks) && Spells(sign, digits, n)
      && (rest == "" || !IsDigit(rest[0]))
  }

  /** The places that stoi finds. */
  lemma Cut(s: string, i: nat, start: nat, end: nat)
    requires i <= start <= end <= |s|
    ensures s == s[..i] + (s[i..start] + (s[start..end] + s[end..]))
  {
  }

  lemma StartsBy(s: string, blanks: string, sign: string, digits: string, rest: string, n: int)
    requires s == blanks + (sign + (digits + rest)) && AllSpaces(blanks) && Spells(sign, digits, n)
    requires rest == "" || !IsDigit(rest[0])
    ensures StartsWith(s, n)
  {
  }

  lemma SignedDigits(s: string, i: nat, start: nat, end: nat) returns (n: int)
    requires i <= start < end <= |s| && start == (if HasSign(s, i) then i + 1 else i)
    requires AllDigits(s[start..end])
    ensures Spells(s[i..start], s[start..end], n)
    ensures n == if HasSign(s, i) && s[i] == '-' then 0 - Number(s[start..end]) else Number(s[start..end])
  {
    n := if HasSign(s, i) && s[i] == '-' then 0 - Number(s[start..end]) else Number(s[start..end]);
    SignIs(s, i);
    hide Number, AllDigits;
  }

  lemma SignIs(s: string, i: nat)
    requires i <= |s|
    ensures HasSign(s, i) ==> s[i..i + 1] == [s[i]]
    ensures s[i..i] == ""
  {
  }

  lemma StoiReads(s: string) returns (n: int)
    ensures Stoi(s) != Err(InvalidArgument) ==>
              StartsWith(s, n) && Stoi(s) == if IsInt(n) then Ok(n) else Err(OutOfIntRange)
  {
    hide Number, Spells, StartsWith, SkipSpaces, SkipDigits;
    var i := SkipSpaces(s, 0);
    var start := if HasSign(s, i) then i + 1 else i;
    var end := SkipDigits(s, start);
    SpacesSkipped(s, 0);
    n := 0;
    if start < end {
      n := SignedDigits(s, i, start, end);
      Cut(s, i, start, end);
      StartsBy(s, s[..i], s[i..start], s[start..end], s[end..], n);
    }
  }

  lemma SkipsBlanks(blanks: string, s: string)
    requires AllSpaces(blanks) && s != "" && !IsSpace(s[0])
    ensures SkipSpaces(blanks + s, 0) == |blanks|
  {
    SpacesSkipped(blanks + s, 0);
    assert (blanks + s)[|blanks|] == s[0];
    assert forall k | 0 <= k < |blanks| :: (blanks + s)[k] == blanks[k];
  }

  lemma SkipsDigits(s: string, i: nat, j: nat)
    requires i <= j <= |s| && (forall k | i <= k < j :: IsDigit(s[k])) && (j < |s| ==> !IsDigit(s[j]))
    ensures SkipDigits(s, i) == j
  {
  }

  lemma Pasted(blanks: string, sign: string, digits: string, rest: string)
    requires digits != ""
    ensures var s, i := blanks + (sign + (digits + rest)), |blanks| + |sign|;
            var j := i + |digits|;
            && s[i..j] == digits && (forall k | i <= k < j :: s[k] == digits[k - i]) && |s| == j + |rest|
            && (rest != "" ==> s[j] == rest[0]) && s[|blanks|] == (if sign != "" then sign[0] else digits[0])
  {
  }

  lemma StoiTakes(s: string, blanks: string, sign: string, digits: string, rest: string, n: int)
    requires s == blanks + (sign + (digits + rest)) && AllSpaces(blanks) && Spells(sign, digits, n)
    requires rest == "" || !IsDigit(rest[0])
    ensures Stoi(s) == if IsInt(n) then Ok(n) else Err(OutOfIntRange)
  {
    Pasted(blanks, sign, digits, rest);
    var i, j := |blanks| + |sign|, |blanks| + |sign| + |digits|;
    assert IsDigit(digits[0]);
    SkipsBlanks(blanks, sign + (digits + rest));
    SkipsDigits(s, i, j);
    hide SkipSpaces, SkipDigits, Number;
  }

  /** stoi reads the number that the text starts with; without one it fails, and
      beyond an int it fails differently. */
  lemma StoiIff(s: string)
    ensures forall n :: Stoi(s) == Ok(n) <==> IsInt(n) && StartsWith(s, n)
    ensures Stoi(s) == Err(InvalidArgument) <==> forall n :: !StartsWith(s, n)
    ensures Stoi(s) == Err(OutOfIntRange) <==> exists n :: StartsWith(s, n) && !IsInt(n)
    ensures Stoi(s) != Err(NumberFormat)
  {
    var m := StoiReads(s);
    forall n | StartsWith(s, n)
      ensures Stoi(s) == if IsInt(n) then Ok(n) else Err(OutOfIntRange)
    {
      var blanks, sign, digits, rest :|
        && s == blanks + (sign + (digits + rest)) && AllSpaces(blanks) && Spells(sign, digits, n)
        && (rest == "" || !IsDigit(rest[0]));
      StoiTakes(s, blanks, sign, digits, rest, n);
    }
    hide Stoi, StartsWith;
  }
}
