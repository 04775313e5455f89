/**
  Numbers as they are written into and read from the nodes' contents: `std::to_string` (lib/src/xml.h)
  and `std::stoi`, `std::stod` (lib/src/rpc_parsing.cc). A double is a fixed-point number of millionths,
  the precision `std::to_string` writes.
*/
module Numbers {
  import opened Wrappers
  import opened XmlReader

  const MILLION := 1000000

  type Int32 = i: int | -0x8000_0000 <= i < 0x8000_0000

  predicate IsDigit(c: char) {
    '0' <= c <= '9'
  }

  function Digit(d: int): (c: char)
    requires 0 <= d < 10
    ensures IsDigit(c) && DigitValue(c) == d
  {
    '0' + d as char
  }

  function DigitValue(c: char): int {
    c as int - '0' as int
  }

  function Digits(n: nat): (s: string)
    ensures s != ""
  {
    if n < 10 then [Digit(n)] else Digits(n / 10) + [Digit(n % 10)]
  }

  /** Exactly `width` digits. */
  function Padded(n: nat, width: nat): (s: string)
    ensures |s| == width
  {
    if width == 0 then "" else Padded(n / 10, width - 1) + [Digit(n % 10)]
  }

  function Value(s: string): int {
    if s == "" then 0 else 10 * Value(s[..|s| - 1]) + DigitValue(s[|s| - 1])
  }

  function Sign(i: int): string {
    if i < 0 then "-" else ""
  }

  function Abs(i: int): nat {
    if i < 0 then -i else i
  }

  function IntText(i: int): string {
    Sign(i) + Digits(Abs(i))
  }

  function DecimalText(micros: int): string {
    Sign(micros) + (Digits(Abs(micros) / MILLION) + ("." + Padded(Abs(micros) % MILLION, 6)))
  }

  function DigitCount(s: string): (k: nat)
    ensures k <= |s|
    ensures forall i :: 0 <= i < k ==> IsDigit(s[i])
    ensures k < |s| ==> !IsDigit(s[k])
  {
    if s == "" || !IsDigit(s[0]) then 0 else 1 + DigitCount(s[1..])
  }

  /** The sign, and what follows it. */
  function Signed(s: string): (int, string) {
    if s != "" && s[0] == '-' then (-1, s[1..])
    else if s != "" && s[0] == '+' then (1, s[1..])
    else (1, s)
  }

  /** `None` is the exception for a text that does not start with a number, or with one out of range. */
  function ParseInt(s: string): Option<Int32> {
    var (sign, t) := Signed(SkipSpace(s));
    var k := DigitCount(t);
    var i := sign * Value(t[..k]);
    if k == 0 || !(-0x8000_0000 <= i < 0x8000_0000) then None else Some(i)
  }

  /** The first six digits after the point count. */
  function Fraction(s: string): int {
    Value((s + "000000")[..6])
  }

  function ParseUnsigned(t: string): Option<int> {
    var k := DigitCount(t);
    var f := if k < |t| && t[k] == '.' then t[k + 1..][..DigitCount(t[k + 1..])] else "";
    if k == 0 && f == "" then None else Some(Value(t[..k]) * MILLION + Fraction(f))
  }

  function ParseDecimal(s: string): Option<int> {
    var (sign, t) := Signed(SkipSpace(s));
    match ParseUnsigned(t)
    case Some(value) => Some(sign * value)
    case None => None
  }

  // ----- reading back -----

  lemma {:induction false} DigitsValue(n: nat)
    ensures Value(Digits(n)) == n && forall c <- Digits(n) :: IsDigit(c)
  {
    if n < 10 {
      assert Value([Digit(n)]) == 10 * Value([]) + n;
    } else {
      DigitsValue(n / 10);
      var s := Digits(n);
      assert s[..|s| - 1] == Digits(n / 10);
    }
  }

  lemma {:induction false} PaddedValue(n: nat, width: nat)
    ensures forall c <- Padded(n, width) :: IsDigit(c)
    ensures n < Power(width) ==> Value(Padded(n, width)) == n
  {
    if width > 0 {
      PaddedValue(n / 10, width - 1);
      var s := Padded(n, width);
      assert s[..|s| - 1] == Padded(n / 10, width - 1);
    }
  }

  function Power(k: nat): nat {
    if k == 0 then 1 else 10 * Power(k - 1)
  }

  lemma DigitsEnd(digits: string, after: string)
    requires forall c <- digits :: IsDigit(c)
    requires after == "" || !IsDigit(after[0])
    ensures DigitCount(digits + after) == |digits|
  {
    assert forall i :: 0 <= i < |digits| ==> (digits + after)[i] == digits[i] && digits[i] in digits;
    assert after != "" ==> (digits + after)[|digits|] == after[0];
  }

  lemma SignedBack(i: int, text: string)
    requires text != "" && IsDigit(text[0])
    ensures Signed(SkipSpace(Sign(i) + text)) == (if i < 0 then -1 else 1, text)
  {
    assert (Sign(i) + text)[|Sign(i)|..] == text;
  }

  lemma IntRoundTrip(i: Int32)
    ensures ParseInt(IntText(i)) == Some(i)
  {
    var digits := Digits(Abs(i));
    DigitsValue(Abs(i));
    assert digits[0] in digits;
    SignedBack(i, digits);
    DigitsEnd(digits, "");
    assert digits + "" == digits && digits[..|digits|] == digits;
  }

  lemma UnsignedBack(digits: string, fraction: string)
    requires digits != "" && |fraction| == 6 && forall c <- digits + fraction :: IsDigit(c)
    ensures ParseUnsigned(digits + ("." + fraction)) == Some(Value(digits) * MILLION + Value(fraction))
  {
    hide Value;
    var text := digits + ("." + fraction);
    assert forall c <- digits :: c in digits + fraction;
    assert forall c <- fraction :: c in digits + fraction;
    DigitsEnd(digits, "." + fraction);
    assert text[..|digits|] == digits && text[|digits| + 1..] == fraction;
    DigitsEnd(fraction, "");
    assert fraction + "" == fraction && fraction[..6] == fraction;
    assert (fraction + "000000")[..6] == fraction;
  }

  lemma DecimalRoundTrip(micros: int)
    ensures ParseDecimal(DecimalText(micros)) == Some(micros)
  {
    hide ParseUnsigned, Padded, Digits, Value;
    var whole, part := Abs(micros) / MILLION, Abs(micros) % MILLION;
    var digits, fraction := Digits(whole), Padded(part, 6);
    DigitsValue(whole);
    assert Power(6) == MILLION;
    PaddedValue(part, 6);
    UnsignedBack(digits, fraction);
    var text := digits + ("." + fraction);
    assert text[0] == digits[0] && digits[0] in digits;
    SignedBack(micros, text);
    assert whole * MILLION + part == Abs(micros);
  }

  // ----- which texts these are -----

  /** Decimal digits, without leading zeros. */
  lemma {:induction false} DigitsAreDecimal(n: nat)
    ensures |Digits(n)| > 1 ==> Digits(n)[0] != '0'
    ensures n >= 10 ==> Digits(n) == Digits(n / 10) + ["0123456789"[n % 10]]
    ensures n < 10 ==> Digits(n) == ["0123456789"[n]]
  {
    if n >= 10 {
      DigitsAreDecimal(n / 10);
    }
  }

  lemma DecimalDigits(d: int)
    requires 0 <= d < 10
    ensures Digit(d) == "0123456789"[d]
  {
  }

  /** The sign comes first. */
  lemma NegativeIs(i: int)
    requires i > 0
    ensures IntText(-i) == "-" + IntText(i) && IntText(i) == Digits(i) && DecimalText(-i) == "-" + DecimalText(i)
  {
    hide Digits, Padded;
    assert "" + Digits(i) == Digits(i);
  }

  /** A decimal text has a whole part, a point and six digits, which together are the number of millionths. */
  lemma DecimalIs(micros: nat)
    ensures var whole, part := Digits(micros / 1000000), Padded(micros % 1000000, 6);
            && DecimalText(micros) == whole + "." + part && |part| == 6
            && (forall c <- whole + part :: '0' <= c <= '9')
            && 1000000 * Value(whole) + Value(part) == micros
  {
    hide Digits, Padded, Value;
    var whole, part := Digits(micros / 1000000), Padded(micros % 1000000, 6);
    DigitsValue(micros / 1000000);
    assert Power(6) == 1000000;
    PaddedValue(micros % 1000000, 6);
    assert "" + (whole + ("." + part)) == whole + "." + part;
  }

  lemma ValueIs(s: string, c: char)
    requires '0' <= c <= '9'
    ensures Value("") == 0 && Value(s + [c]) == 10 * Value(s) + (c as int - 48)
  {
    assert (s + [c])[..|s|] == s;
  }

  /** A number is read up to the first character that is no digit; it must be in range, and there must be one. */
  lemma ParsedInt(sign: int, digits: string, after: string)
    requires sign == 1 || sign == -1
    requires digits != "" && (forall c <- digits :: IsDigit(c)) && (after == "" || !IsDigit(after[0]))
    ensures ParseInt((if sign < 0 then "-" else "") + (digits + after))
         == var i := sign * Value(digits); if -0x8000_0000 <= i <= 0x7fff_ffff then Some(i) else None
  {
    var text := digits + after;
    assert text[0] == digits[0] && digits[0] in digits;
    SignedBack(sign, text);
    DigitsEnd(digits, after);
    assert text[..|digits|] == digits;
    hide Value, Signed, DigitCount;
  }

  lemma NoInt(text: string)
    requires text == "" || !(IsDigit(text[0]) || IsSpace(text[0]) || text[0] == '-' || text[0] == '+')
    ensures ParseInt(text) == None
  {
  }
}
