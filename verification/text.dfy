/**
 The string primitives the scoring engine relies on: ASCII case folding
 (standing in for `str.lower` / `str.upper`), the decimal rendering of
 integers (`str(int)`), the rendering of an amount held in centavos the
 way a float amount prints, and joining reason strings with a separator.
 */
module Text {

  predicate IsUpperAscii(c: char) {
    'A' <= c <= 'Z'
  }

  predicate IsLowerAscii(c: char) {
    'a' <= c <= 'z'
  }

  predicate IsDigit(c: char) {
    '0' <= c <= '9'
  }

  /** Lower-cases an ASCII letter; every other character is kept. */
  function LowerChar(c: char): char {
    if IsUpperAscii(c) then (c as int + 32) as char else c
  }

  /** Upper-cases an ASCII letter; every other character is kept. */
  function UpperChar(c: char): char {
    if IsLowerAscii(c) then (c as int - 32) as char else c
  }

  /** ASCII lower-casing of a whole string, character by character. */
  function Lower(s: string): (r: string)
    ensures |r| == |s|
  {
    if |s| == 0 then "" else Lower(s[..|s| - 1]) + [LowerChar(s[|s| - 1])]
  }

  /** ASCII upper-casing of a whole string, character by character. */
  function Upper(s: string): (r: string)
    ensures |r| == |s|
  {
    if |s| == 0 then "" else Upper(s[..|s| - 1]) + [UpperChar(s[|s| - 1])]
  }

  /** Each character of the lower-casing is the lower-casing of the
      character at the same position, and none is an upper-case letter. */
  lemma {:induction false} LowerChars(s: string)
    ensures forall i :: 0 <= i < |s| ==> Lower(s)[i] == LowerChar(s[i])
    ensures forall i :: 0 <= i < |s| ==> !IsUpperAscii(Lower(s)[i])
  {
    if |s| > 0 {
      LowerChars(s[..|s| - 1]);
    }
  }

  /** Each character of the upper-casing is the upper-casing of the
      character at the same position, and none is a lower-case letter. */
  lemma {:induction false} UpperChars(s: string)
    ensures forall i :: 0 <= i < |s| ==> Upper(s)[i] == UpperChar(s[i])
    ensures forall i :: 0 <= i < |s| ==> !IsLowerAscii(Upper(s)[i])
  {
    if |s| > 0 {
      UpperChars(s[..|s| - 1]);
    }
  }

  /** Lower-casing twice is lower-casing once. */
  lemma LowerIdempotent(s: string)
    ensures Lower(Lower(s)) == Lower(s)
  {
    var l := Lower(s);
    LowerChars(s);
    LowerChars(l);
    assert forall i :: 0 <= i < |l| ==> LowerChar(l[i]) == l[i];
  }

  /** A string with no ASCII upper-case letter is its own lower-casing. */
  lemma LowerNoUpper(s: string)
    requires forall i :: 0 <= i < |s| ==> !IsUpperAscii(s[i])
    ensures Lower(s) == s
  {
    LowerChars(s);
  }

  /** A string lower-cases to `t` when it does so character by character. */
  lemma LowerPointwise(s: string, t: string)
    requires |s| == |t|
    requires forall i :: 0 <= i < |s| ==> LowerChar(s[i]) == t[i]
    ensures Lower(s) == t
  {
    LowerChars(s);
  }

  /** Two strings that differ only in the case of ASCII letters lower-case alike. */
  lemma LowerIgnoresCase(s: string)
    ensures Lower(Upper(s)) == Lower(s)
  {
    var u := Upper(s);
    UpperChars(s);
    LowerChars(s);
    LowerChars(u);
    assert forall i :: 0 <= i < |s| ==> LowerChar(u[i]) == LowerChar(s[i]);
  }

  // ---------------------------------------------------------------------
  // Decimal rendering of integers and its inverse
  // ---------------------------------------------------------------------

  function DigitChar(d: nat): (c: char)
    requires d < 10
    ensures IsDigit(c)
  {
    ('0' as int + d) as char
  }

  function DigitValue(c: char): (d: nat)
    requires IsDigit(c)
    ensures d < 10
  {
    c as int - '0' as int
  }

  predicate AllDigits(s: string) {
    forall i :: 0 <= i < |s| ==> IsDigit(s[i])
  }

  /** Decimal digits of a natural number, most significant first, without leading zeros. */
  function NatToString(n: nat): (s: string)
    ensures |s| >= 1
    ensures AllDigits(s)
    ensures s[0] == '0' ==> n == 0
    decreases n
  {
    if n < 10 then [DigitChar(n)] else NatToString(n / 10) + [DigitChar(n % 10)]
  }

  /** The value of a string of decimal digits (the empty string reads as 0). */
  function ParseNat(s: string): nat
    requires AllDigits(s)
  {
    if |s| == 0 then 0 else ParseNat(s[..|s| - 1]) * 10 + DigitValue(s[|s| - 1])
  }

  lemma {:induction false} ParseNatToString(n: nat)
    ensures ParseNat(NatToString(n)) == n
    decreases n
  {
    if n >= 10 {
      var s := NatToString(n / 10);
      ParseNatToString(n / 10);
      var t := s + [DigitChar(n % 10)];
      assert t[..|t| - 1] == s;
    }
  }

  /** Signed decimal rendering of an integer: a leading '-' for negatives only. */
  function IntToString(i: int): (s: string)
    ensures |s| >= 1
    ensures s[0] == '-' <==> i < 0
  {
    if i < 0 then "-" + NatToString(-i) else NatToString(i)
  }

  predicate IsIntText(s: string) {
    if |s| > 0 && s[0] == '-' then AllDigits(s[1..]) else AllDigits(s)
  }

  function ParseInt(s: string): int
    requires IsIntText(s)
  {
    var magnitude: int := if |s| > 0 && s[0] == '-' then ParseNat(s[1..]) else ParseNat(s);
    if |s| > 0 && s[0] == '-' then -magnitude else magnitude
  }

  /** The rendering of an integer reads back as that integer. */
  lemma ParseIntToString(i: int)
    ensures IsIntText(IntToString(i))
    ensures ParseInt(IntToString(i)) == i
  {
    if i < 0 {
      var s := IntToString(i);
      assert s[1..] == NatToString(-i);
      ParseNatToString(-i);
    } else {
      ParseNatToString(i);
    }
  }

  // ---------------------------------------------------------------------
  // Amounts
  // ---------------------------------------------------------------------

  /** The centavos written by the one or two digits after a decimal point. */
  function CentsValue(s: string): nat
    requires 1 <= |s| <= 2 && AllDigits(s)
  {
    if |s| == 1 then 10 * DigitValue(s[0]) else 10 * DigitValue(s[0]) + DigitValue(s[1])
  }

  /** The digits after the decimal point of a float amount with `f` centavos:
      one digit when the second is zero (".5", ".0"), two otherwise (".05", ".55").
      They never end in a superfluous zero and they read back as `f`. */
  function CentsText(f: nat): (s: string)
    requires f < 100
    ensures 1 <= |s| <= 2 && AllDigits(s)
    ensures |s| == 2 ==> s[1] != '0'
    ensures CentsValue(s) == f
  {
    if f % 10 == 0 then [DigitChar(f / 10)] else [DigitChar(f / 10), DigitChar(f % 10)]
  }

  /** An amount of `cents` centavos printed as the float `cents / 100` prints:
      shortest digits, always with a decimal point ("5200.0", "0.05", "-1.5").
      This holds while the amount has at most fifteen significant digits
      (below 10^15 centavos in magnitude); beyond that the nearest float
      may print as a different amount. */
  function AmountToString(cents: int): string {
    var m: nat := if cents < 0 then -cents else cents;
    (if cents < 0 then "-" else "") + NatToString(m / 100) + "." + CentsText(m % 100)
  }

  /** The text after an optional leading minus sign. */
  function Unsigned(s: string): string {
    if |s| > 0 && s[0] == '-' then s[1..] else s
  }

  /** Where the decimal point of an amount text sits, given that one or two
      digits follow it. */
  function PointIndex(body: string): (k: nat)
    requires |body| >= 3
    ensures k < |body| - 1
  {
    if body[|body| - 2] == '.' then |body| - 2 else |body| - 3
  }

  /** Digits, a point, then one or two digits, after an optional minus sign. */
  predicate IsAmountText(s: string) {
    var body := Unsigned(s);
    |body| >= 3 && body[PointIndex(body)] == '.'
    && AllDigits(body[..PointIndex(body)]) && AllDigits(body[PointIndex(body) + 1..])
  }

  /** The amount in centavos that an amount text stands for. */
  function ParseAmount(s: string): int
    requires IsAmountText(s)
  {
    var body := Unsigned(s);
    var k := PointIndex(body);
    var m := 100 * ParseNat(body[..k]) + CentsValue(body[k + 1..]);
    if |s| > 0 && s[0] == '-' then -m else m
  }

  /** Every amount prints as a well-formed amount text that reads back as
      the same number of centavos, so no two amounts print alike. */
  lemma ParseAmountToString(cents: int)
    ensures IsAmountText(AmountToString(cents))
    ensures ParseAmount(AmountToString(cents)) == cents
  {
    var m: nat := if cents < 0 then -cents else cents;
    var digits, frac := NatToString(m / 100), CentsText(m % 100);
    var sign := if cents < 0 then "-" else "";
    assert AmountToString(cents) == sign + (digits + "." + frac);
    ParseAmountParts(sign, digits, frac);
    ParseNatToString(m / 100);
  }

  /** A sign, digits, a point and one or two digits read back part by part. */
  lemma ParseAmountParts(sign: string, digits: string, frac: string)
    requires sign == "" || sign == "-"
    requires |digits| >= 1 && AllDigits(digits)
    requires 1 <= |frac| <= 2 && AllDigits(frac)
    ensures IsAmountText(sign + (digits + "." + frac))
    ensures var m := 100 * ParseNat(digits) + CentsValue(frac);
            ParseAmount(sign + (digits + "." + frac)) == if sign == "-" then -m else m
  {
    var body := digits + "." + frac;
    UnsignedBody(sign, body);
    PointOfBody(digits, frac);
    var k := PointIndex(body);
    assert Unsigned(sign + body)[..k] == digits;
    assert Unsigned(sign + body)[k + 1..] == frac;
  }

  lemma UnsignedBody(sign: string, body: string)
    requires sign == "" || sign == "-"
    requires |body| > 0 && IsDigit(body[0])
    ensures Unsigned(sign + body) == body
    ensures var s := sign + body; (|s| > 0 && s[0] == '-') <==> sign == "-"
  {
    if sign == "-" {
      assert (sign + body)[1..] == body;
    } else {
      assert sign + body == body;
    }
  }

  lemma PointOfBody(digits: string, frac: string)
    requires |digits| >= 1 && AllDigits(digits)
    requires 1 <= |frac| <= 2 && AllDigits(frac)
    ensures var body := digits + "." + frac;
            |body| >= 3 && PointIndex(body) == |digits| && body[|digits|] == '.'
            && body[..|digits|] == digits && body[|digits| + 1..] == frac
  {
    var body := digits + "." + frac;
    if |frac| == 2 {
      assert body[|body| - 2] == frac[0];
    }
    assert body[..|digits|] == digits;
    assert body[|digits| + 1..] == frac;
  }

  /** Amounts with a fractional part print only the digits they need. */
  lemma FractionalAmounts()
    ensures AmountToString(5) == "0.05"
    ensures AmountToString(150) == "1.5"
    ensures AmountToString(-150) == "-1.5"
    ensures AmountToString(123456) == "1234.56"
  {
    assert NatToString(1234) == "1234" by {
      assert NatToString(12) == NatToString(1) + "2";
      assert NatToString(123) == NatToString(12) + "3";
    }
  }

  /** A whole number of pesos prints with a single trailing ".0". */
  lemma WholeAmountToString(pesos: nat)
    ensures AmountToString(100 * pesos) == NatToString(pesos) + ".0"
  {
    assert (100 * pesos) / 100 == pesos;
    assert (100 * pesos) % 100 == 0;
  }

  // ---------------------------------------------------------------------
  // Joining
  // ---------------------------------------------------------------------

  function TotalLength(parts: seq<string>): nat {
    if |parts| == 0 then 0 else |parts[0]| + TotalLength(parts[1..])
  }

  /** The parts in order with `sep` between neighbours (`sep.join(parts)`). */
  function Join(parts: seq<string>, sep: string): (r: string)
    ensures |r| == TotalLength(parts) + (if |parts| == 0 then 0 else (|parts| - 1) * |sep|)
    ensures |parts| > 0 ==> r[..|parts[0]|] == parts[0]
  {
    if |parts| == 0 then ""
    else if |parts| == 1 then parts[0]
    else parts[0] + sep + Join(parts[1..], sep)
  }

  /** Appending a part to a non-empty list appends the separator and that part. */
  lemma {:induction false} JoinSnoc(parts: seq<string>, p: string, sep: string)
    requires |parts| > 0
    ensures Join(parts + [p], sep) == Join(parts, sep) + sep + p
    decreases |parts|
  {
    if |parts| == 1 {
      assert (parts + [p])[1..] == [p];
    } else {
      assert (parts + [p])[1..] == parts[1..] + [p];
      JoinSnoc(parts[1..], p, sep);
    }
  }

  /** Joining non-empty parts gives the empty string exactly when there are no parts. */
  lemma JoinEmptyIff(parts: seq<string>, sep: string)
    requires forall i :: 0 <= i < |parts| ==> |parts[i]| > 0
    ensures Join(parts, sep) == "" <==> |parts| == 0
  {
    if |parts| > 0 {
      assert |Join(parts, sep)| >= |parts[0]|;
    }
  }
}
