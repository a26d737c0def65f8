/** Java's signed 64-bit decimal text: Long.parseLong and Long.toString. */
module Numbers {
  import opened Wrappers

  const LONG_MIN: int := -0x8000_0000_0000_0000
  const LONG_MAX: int := 0x7FFF_FFFF_FFFF_FFFF

  predicate IsDigit(c: char) {
    '0' <= c <= '9'
  }

  predicate AllDigits(s: string) {
    forall i :: 0 <= i < |s| ==> IsDigit(s[i])
  }

  /** The value of a string of decimal digits, most significant first. */
  function DigitsValue(s: string): (v: nat)
    requires AllDigits(s)
  {
    if s == [] then 0 else DigitsValue(s[..|s| - 1]) * 10 + (s[|s| - 1] as int - '0' as int)
  }

  function DigitChar(d: nat): (c: char)
    requires d < 10
    ensures IsDigit(c) && c as int - '0' as int == d
  {
    ('0' as int + d) as char
  }

  /** Long.toString of a non-negative value. */
  function Decimal(n: nat): (s: string) {
    if n < 10 then [DigitChar(n)] else Decimal(n / 10) + [DigitChar(n % 10)]
  }

  /** Long.toString. */
  function SignedDecimal(n: int): (s: string) {
    if n < 0 then "-" + Decimal(-n) else Decimal(n)
  }

  function NumberFormatError(s: string): (message: string) {
    "For input string: \"" + s + "\""
  }

  /** The text after an optional leading '-' or '+'. */
  function Unsigned(s: string): (digits: string)
    requires s != []
  {
    if s[0] == '-' || s[0] == '+' then s[1..] else s
  }

  /** The syntax Long.parseLong accepts: an optional '-' or '+', then at least one digit. */
  predicate IsLongSyntax(s: string) {
    s != [] && Unsigned(s) != [] && AllDigits(Unsigned(s))
  }

  /** The value the text denotes, negated after a leading '-'. */
  function SyntaxValue(s: string): (v: int)
    requires IsLongSyntax(s)
  {
    if s[0] == '-' then -(DigitsValue(Unsigned(s)) as int) else DigitsValue(Unsigned(s))
  }

  /**
   * Long.parseLong in radix 10: text of the accepted syntax whose value lies in the signed
   * 64-bit range parses to that value; any other text is a NumberFormatException.
   */
  function ParseLong(s: string): (r: Result<int>)
    ensures r.Ok? <==> IsLongSyntax(s) && LONG_MIN <= SyntaxValue(s) <= LONG_MAX
    ensures r.Ok? ==> r.value == SyntaxValue(s)
    ensures r.Err? ==> r.reason == NumberFormatError(s)
    ensures AllDigits(s) && s != [] && DigitsValue(s) <= LONG_MAX ==> r == Ok(DigitsValue(s))
  {
    if IsLongSyntax(s) && LONG_MIN <= SyntaxValue(s) <= LONG_MAX then Ok(SyntaxValue(s))
    else Err(NumberFormatError(s))
  }

  /** Decimal is a string of digits whose value is the number it was made from. */
  lemma {:induction false} DecimalDigits(n: nat)
    ensures Decimal(n) != [] && AllDigits(Decimal(n))
    ensures DigitsValue(Decimal(n)) == n
  {
    if n >= 10 {
      DecimalDigits(n / 10);
      var s := Decimal(n);
      assert s[..|s| - 1] == Decimal(n / 10);
    }
  }

  /** Long.parseLong(Long.toString(n)) == n for every long n. */
  lemma ParseSignedDecimal(n: int)
    requires LONG_MIN <= n <= LONG_MAX
    ensures ParseLong(SignedDecimal(n)) == Ok(n)
  {
    DecimalDigits(if n < 0 then -n else n);
    if n < 0 {
      assert ("-" + Decimal(-n))[1..] == Decimal(-n);
    }
  }

  /** The decimal text of LONG_MAX + 1 is out of range: parsing it fails. */
  lemma ParseOverflowFails()
    ensures ParseLong(Decimal(LONG_MAX + 1)).Err?
  {
    DecimalDigits(LONG_MAX + 1);
  }
}
