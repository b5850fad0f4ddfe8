/**
 * Scalar cell values of the student table and Python's `str()` of them,
 * which is what the report's column-width rule measures.
 */
module Values {
  import opened Wrappers

  /** A scalar read from the table: a label, an integer, or a float. */
  datatype Value =
    | Text(s: string)
    | Integer(n: int)
      /** A float: its exact value and the text Python prints for it. */
    | Float(x: real, shown: string)

  /** `str(v)` */
  function Str(v: Value): (s: string)
    ensures v.Text? ==> s == v.s
    ensures v.Integer? ==> s == DecimalString(v.n) && |s| >= 1 && (s[0] == '-' <==> v.n < 0)
    ensures v.Float? ==> s == v.shown
  {
    match v
    case Text(s) => s
    case Integer(n) => DecimalString(n)
    case Float(_, shown) => shown
  }

  /** `str(None)`: what a cell that was never written shows. */
  const NoneText := "None"

  predicate IsDigit(c: char) { '0' <= c <= '9' }

  function Digit(d: nat): (c: char)
    requires d < 10
    ensures IsDigit(c)
  {
    ('0' as int + d) as char
  }

  function DigitValue(c: char): nat
    requires IsDigit(c)
  {
    c as int - '0' as int
  }

  predicate AllDigits(s: string) { forall i :: 0 <= i < |s| ==> IsDigit(s[i]) }

  /** Decimal digits of a natural number, most significant first, no leading zero. */
  function NatDigits(n: nat): (s: string)
    ensures |s| >= 1 && AllDigits(s)
    ensures n >= 10 <==> |s| >= 2
    decreases n
  {
    if n < 10 then [Digit(n)] else NatDigits(n / 10) + [Digit(n % 10)]
  }

  /** `str(n)` for a Python int: an optional minus sign and the decimal digits. */
  function DecimalString(n: int): (s: string)
    ensures |s| >= 1
    ensures (s[0] == '-') <==> n < 0
  {
    if n < 0 then "-" + NatDigits(-n) else NatDigits(n)
  }

  function ParseNat(s: string): nat
    requires AllDigits(s)
  {
    if s == [] then 0 else 10 * ParseNat(s[..|s| - 1]) + DigitValue(s[|s| - 1])
  }

  /** `int(s)` restricted to what DecimalString produces; None for anything else. */
  function ParseDecimal(s: string): Option<int>
  {
    if |s| >= 2 && s[0] == '-' && AllDigits(s[1..]) then Some(-(ParseNat(s[1..]) as int))
    else if |s| >= 1 && AllDigits(s) then Some(ParseNat(s))
    else None
  }

  lemma {:induction false} ParseNatDigits(n: nat)
    ensures ParseNat(NatDigits(n)) == n
    decreases n
  {
    if n >= 10 {
      var s := NatDigits(n);
      assert s[..|s| - 1] == NatDigits(n / 10);
      ParseNatDigits(n / 10);
    }
  }

  /** The decimal text of an integer reads back as that integer. */
  lemma DecimalRoundTrip(n: int)
    ensures ParseDecimal(DecimalString(n)) == Some(n)
  {
    var s := DecimalString(n);
    if n < 0 {
      assert s[1..] == NatDigits(-n);
      assert |s| >= 2 && s[0] == '-' && AllDigits(s[1..]);
      ParseNatDigits(-n);
    } else {
      assert s == NatDigits(n) && IsDigit(s[0]);
      ParseNatDigits(n);
    }
  }

  /** Distinct integers print differently. */
  lemma DecimalStringInjective(a: int, b: int)
    requires DecimalString(a) == DecimalString(b)
    ensures a == b
  {
    DecimalRoundTrip(a);
    DecimalRoundTrip(b);
  }
}
