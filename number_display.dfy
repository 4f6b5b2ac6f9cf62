/** The text that JSX renders for a numeric child such as `{price}`: the
    number's decimal string, with a leading `-` when it is negative. Only
    integers are modelled. `ParseNumber` reads back every text `NumberText`
    produces; it also accepts texts `NumberText` never produces, such as
    `07` or `-0`. */
module NumberDisplay {
  import opened Products

  predicate IsDigit(c: char) {
    '0' <= c <= '9'
  }

  predicate AllDigits(s: string) {
    forall i :: 0 <= i < |s| ==> IsDigit(s[i])
  }

  function DigitChar(d: int): (c: char)
    requires 0 <= d < 10
    ensures IsDigit(c) && DigitValue(c) == d
  {
    ('0' as int + d) as char
  }

  function DigitValue(c: char): int
    requires IsDigit(c)
  {
    c as int - '0' as int
  }

  /** Decimal digits of a natural number, most significant first, without
      leading zeros. */
  function NatText(n: nat): (s: string)
    ensures |s| > 0 && AllDigits(s)
    ensures s[0] == '0' ==> n == 0
    ensures n < 10 <==> |s| == 1
    decreases n
  {
    if n < 10 then [DigitChar(n)] else NatText(n / 10) + [DigitChar(n % 10)]
  }

  /** The value of a digit string read most significant digit first. */
  function DigitsValue(s: string): nat
    requires AllDigits(s)
  {
    if |s| == 0 then 0 else DigitsValue(s[..|s| - 1]) * 10 + DigitValue(s[|s| - 1])
  }

  /** The text of an integer as JavaScript's number-to-string conversion
      writes it, for integers of magnitude at most 2^53
      (`Number.MAX_SAFE_INTEGER` + 1), which a double holds exactly. */
  function NumberText(n: int): (s: string)
    ensures |s| > 0
    ensures s[0] == '-' <==> n < 0
    ensures n >= 0 ==> AllDigits(s)
    ensures n < 0 ==> |s| > 1 && AllDigits(s[1..])
  {
    if n < 0 then "-" + NatText(-n) else NatText(n)
  }

  /** Reads a decimal integer: optional `-`, then at least one digit. */
  function ParseNumber(s: string): (r: Option<int>)
    ensures r.Some? ==> |s| > 0
    ensures |s| > 0 && AllDigits(s) ==> r == Some(DigitsValue(s))
  {
    if |s| > 1 && s[0] == '-' && AllDigits(s[1..]) then Some(-(DigitsValue(s[1..]) as int))
    else if |s| > 0 && AllDigits(s) then Some(DigitsValue(s))
    else None
  }

  lemma {:induction false} NatTextValue(n: nat)
    ensures DigitsValue(NatText(n)) == n
    decreases n
  {
    if n >= 10 {
      NatTextValue(n / 10);
      var s := NatText(n);
      assert s[..|s| - 1] == NatText(n / 10);
    }
  }

  /** Reading back the rendered text of any integer gives that integer. */
  lemma NumberTextRoundTrip(n: int)
    ensures ParseNumber(NumberText(n)) == Some(n)
  {
    if n < 0 {
      var digits := NatText(-n);
      NatTextValue(-n);
      var s := "-" + digits;
      assert s[1..] == digits;
      assert s == NumberText(n);
    } else {
      var s := NatText(n);
      NatTextValue(n);
      assert IsDigit(s[0]);
      assert s == NumberText(n);
    }
  }

  /** Distinct integers are rendered as distinct texts. */
  lemma NumberTextInjective(a: int, b: int)
    requires NumberText(a) == NumberText(b)
    ensures a == b
  {
    NumberTextRoundTrip(a);
    NumberTextRoundTrip(b);
  }
}
