/** Whole numbers as decimal text. */
module Numbers {

  predicate IsDigit(c: char) {
    '0' <= c <= '9'
  }

  function DigitValue(c: char): (d: nat)
    requires IsDigit(c)
    ensures d < 10
  {
    c as int - '0' as int
  }

  function Digit(d: nat): (c: char)
    requires d < 10
    ensures IsDigit(c) && DigitValue(c) == d
  {
    ('0' as int + d) as char
  }

  predicate OnlyDigits(text: string) {
    forall i :: 0 <= i < |text| ==> IsDigit(text[i])
  }

  predicate AllDigits(text: string) {
    text != [] && OnlyDigits(text)
  }

  function Number(text: string): nat
    requires OnlyDigits(text)
  {
    if text == [] then 0 else 10 * Number(text[..|text| - 1]) + DigitValue(text[|text| - 1])
  }

  function Decimal(n: int): string
    decreases if n < 0 then 1 else 0, if n < 0 then -n else n
  {
    if n < 0 then "-" + Decimal(-n)
    else if n < 10 then [Digit(n)]
    else Decimal(n / 10) + [Digit(n % 10)]
  }

  /** A number written in decimal is read as itself. */
  lemma {:induction false} DecimalReads(n: nat)
    ensures AllDigits(Decimal(n)) && Number(Decimal(n)) == n
  {
    if n >= 10 {
      DecimalReads(n / 10);
      var text := Decimal(n);
      assert text[..|text| - 1] == Decimal(n / 10);
    } else {
      assert Decimal(n)[..0] == [];
    }
  }

  function LeadingDigits(text: string): (digits: string)
    ensures OnlyDigits(digits)
  {
    if text != [] && IsDigit(text[0]) then [text[0]] + LeadingDigits(text[1..]) else []
  }

  /** Digits end where something else begins. */
  lemma {:induction false} LeadingDigitsEnd(digits: string, rest: string)
    requires OnlyDigits(digits) && (rest == [] || !IsDigit(rest[0]))
    ensures LeadingDigits(digits + rest) == digits
    decreases |digits|
  {
    if digits == [] {
      assert digits + rest == rest;
    } else {
      assert (digits + rest)[1..] == digits[1..] + rest;
      LeadingDigitsEnd(digits[1..], rest);
    }
  }
}
