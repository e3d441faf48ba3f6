/** Java-language notions the models rest on: `null` references, thrown
    exceptions, the 32-bit `int`, and the decimal rendering that
    `StringBuffer.append(int)` produces. */
module JavaLang {

  /** A nullable Java reference: `None` stands for `null`. */
  datatype Option<+T> = None | Some(value: T)

  /** Normal completion with a value, or an exception thrown instead. */
  datatype Result<+T, +E> = Success(value: T) | Failure(error: E)

  /** Java's 32-bit two's-complement `int`. */
  newtype int32 = x: int | -0x8000_0000 <= x < 0x8000_0000

  predicate IsDigit(c: char) {
    '0' <= c <= '9'
  }

  predicate AllDigits(s: string) {
    forall i :: 0 <= i < |s| ==> IsDigit(s[i])
  }

  function DigitValue(c: char): (d: nat)
    requires IsDigit(c)
    ensures d < 10
  {
    (c as int) - ('0' as int)
  }

  function DigitChar(d: nat): (c: char)
    requires d < 10
    ensures IsDigit(c) && DigitValue(c) == d
  {
    (('0' as int) + d) as char
  }

  /** The value of a string of decimal digits, most significant first. */
  function DecimalValue(s: string): nat
    requires AllDigits(s)
  {
    if |s| == 0 then 0 else DecimalValue(s[..|s| - 1]) * 10 + DigitValue(s[|s| - 1])
  }

  /** Digits without a leading zero: "0" itself, or a run starting with 1-9. */
  predicate CanonicalDigits(s: string) {
    |s| >= 1 && AllDigits(s) && (s[0] == '0' ==> |s| == 1)
  }

  /** The texts `Integer.toString` produces: canonical digits, optionally
      after a minus sign, and never "-0". */
  predicate CanonicalDecimal(s: string) {
    || CanonicalDigits(s)
    || (|s| >= 2 && s[0] == '-' && CanonicalDigits(s[1..]) && s[1] != '0')
  }

  /** Decimal digits of `n`, most significant first, with no leading zero. */
  function NatToDecimal(n: nat): (s: string)
    ensures CanonicalDigits(s)
    ensures s[0] == '0' <==> n == 0
    ensures n == 0 ==> s == "0"
    ensures DecimalValue(s) == n
  {
    if n < 10 then
      [DigitChar(n)]
    else
      var p := NatToDecimal(n / 10);
      var s := p + [DigitChar(n % 10)];
      assert s[..|s| - 1] == p;
      s
  }

  /** `Integer.toString(n)`: an optional minus sign followed by the decimal
      digits of the magnitude. */
  function IntToDecimal(n: int): (s: string)
    ensures |s| >= 1
    ensures s[0] == '-' <==> n < 0
    ensures CanonicalDecimal(s)
    ensures ParseDecimal(s) == Some(n)
  {
    if n < 0 then
      var s := "-" + NatToDecimal(-n);
      assert s[1..] == NatToDecimal(-n);
      s
    else
      NatToDecimal(n)
  }

  /** Reads back an optional minus sign and a non-empty run of digits;
      anything else is not a decimal integer. */
  function ParseDecimal(s: string): (r: Option<int>)
    ensures r.Some? ==> |s| >= 1
    ensures r.Some? && s[0] != '-' ==> r.value >= 0
  {
    if |s| >= 2 && s[0] == '-' && AllDigits(s[1..]) then
      Some(-(DecimalValue(s[1..]) as int))
    else if |s| >= 1 && AllDigits(s) then
      Some(DecimalValue(s) as int)
    else
      None
  }

  /** A digit run that does not start with zero has a positive value. */
  lemma {:induction false} LeadingDigitPositive(s: string)
    requires |s| >= 1 && AllDigits(s) && s[0] != '0'
    ensures DecimalValue(s) >= 1
    decreases |s|
  {
    if |s| > 1 {
      LeadingDigitPositive(s[..|s| - 1]);
    }
  }

  /** Canonical digits are the rendering of their own value. */
  lemma {:induction false} CanonicalDigitsUnique(s: string)
    requires CanonicalDigits(s)
    ensures NatToDecimal(DecimalValue(s)) == s
    decreases |s|
  {
    var d := DigitValue(s[|s| - 1]);
    if |s| == 1 {
      assert DigitChar(d) == s[0];
    } else {
      var p := s[..|s| - 1];
      assert p[0] == s[0];
      LeadingDigitPositive(p);
      CanonicalDigitsUnique(p);
      var n := DecimalValue(s);
      assert n == DecimalValue(p) * 10 + d;
      assert n / 10 == DecimalValue(p) && n % 10 == d;
      assert DigitChar(d) == s[|s| - 1];
      assert s == p + [s[|s| - 1]];
    }
  }

  /** A canonical decimal text is exactly `Integer.toString` of the value it
      denotes; so the rendering is the only canonical text for its value. */
  lemma CanonicalDecimalUnique(s: string)
    requires CanonicalDecimal(s)
    ensures ParseDecimal(s).Some?
    ensures IntToDecimal(ParseDecimal(s).value) == s
  {
    if CanonicalDigits(s) && s[0] != '-' {
      CanonicalDigitsUnique(s);
    } else {
      var t := s[1..];
      CanonicalDigitsUnique(t);
      LeadingDigitPositive(t);
      assert s == "-" + t;
    }
  }

  /** Rendering is injective: two integers with the same text are equal. */
  lemma IntToDecimalInjective(m: int, n: int)
    requires IntToDecimal(m) == IntToDecimal(n)
    ensures m == n
  {
  }
}
