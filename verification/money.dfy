/** Currency formatting of `formatAmount` (src/utils/invoiceGenerator.js):
    an amount in cents is printed as the yen glyph followed by the amount
    divided by 100 with exactly two decimals, and an absent amount prints as
    zero. `ParseAmount` reads such a text back; the round trip is proved. */
module Money {
  import opened Wrappers

  /** The currency glyph printed in front of every amount. */
  const Currency: char := '¥'

  predicate IsDigit(c: char) {
    '0' <= c <= '9'
  }

  predicate AllDigits(s: string) {
    forall i :: 0 <= i < |s| ==> IsDigit(s[i])
  }

  function DigitValue(c: char): (d: nat)
    requires IsDigit(c)
    ensures d < 10
  {
    c as int - '0' as int
  }

  function DigitChar(d: nat): (c: char)
    requires d < 10
    ensures IsDigit(c) && DigitValue(c) == d
  {
    ('0' as int + d) as char
  }

  /** Decimal digits of `n`, most significant first, without leading zeros. */
  function NatText(n: nat): (s: string)
    ensures 1 <= |s| && AllDigits(s)
    ensures |s| > 1 ==> s[0] != '0'
    decreases n
  {
    if n < 10 then [DigitChar(n)] else NatText(n / 10) + [DigitChar(n % 10)]
  }

  /** The number a string of decimal digits denotes (0 for the empty
      string), or None when some character is not a digit. */
  function DigitsValue(s: string): Option<nat>
  {
    if |s| == 0 then Some(0)
    else if !IsDigit(s[|s| - 1]) then None
    else
      match DigitsValue(s[..|s| - 1])
      case None => None
      case Some(v) => Some(10 * v + DigitValue(s[|s| - 1]))
  }

  lemma {:induction false} DigitsValueOfNatText(n: nat)
    ensures DigitsValue(NatText(n)) == Some(n)
    decreases n
  {
    if n >= 10 {
      var s := NatText(n);
      assert s[..|s| - 1] == NatText(n / 10);
      DigitsValueOfNatText(n / 10);
    }
  }

  /** The unsigned part of `Fixed2`: whole units, a point, two digits of cents. */
  function UnsignedFixed2(m: nat): string
  {
    NatText(m / 100) + "." + [DigitChar(m % 100 / 10), DigitChar(m % 10)]
  }

  /** What JavaScript's `(cents / 100).toFixed(2)` prints for an integer
      number of cents: a minus sign for negative amounts, the whole units,
      a point and exactly two digits of cents. */
  function Fixed2(cents: int): string
  {
    if cents < 0 then "-" + UnsignedFixed2(-cents) else UnsignedFixed2(cents)
  }

  /** `formatAmount`: the currency glyph and the amount with two decimals;
      an absent amount is printed as zero. */
  function FormatAmount(amount: Option<int>): (s: string)
    ensures 5 <= |s| && s[0] == Currency
    ensures s[|s| - 3] == '.' && IsDigit(s[|s| - 2]) && IsDigit(s[|s| - 1])
    ensures amount.None? ==> s == "¥0.00"
    ensures amount.Some? ==> (s[1] == '-' <==> amount.value < 0)
    ensures var k := if amount.Some? && amount.value < 0 then 2 else 1;
      && k < |s| - 3 && AllDigits(s[k..|s| - 3])
      && (s[k] == '0' ==> k + 1 == |s| - 3)
  {
    match amount
    case None => "¥0.00"
    case Some(n) =>
      var m := if n < 0 then -n else n;
      var k := if n < 0 then 2 else 1;
      var s := [Currency] + Fixed2(n);
      assert s[k..|s| - 3] == NatText(m / 100);
      s
  }

  /** Reads one or more digits, a point and two digits as a number of cents. */
  function ParseUnsigned(s: string): Option<nat>
  {
    if |s| < 4 || s[|s| - 3] != '.' || !IsDigit(s[|s| - 2]) || !IsDigit(s[|s| - 1]) then None
    else
      match DigitsValue(s[..|s| - 3])
      case None => None
      case Some(whole) => Some(100 * whole + 10 * DigitValue(s[|s| - 2]) + DigitValue(s[|s| - 1]))
  }

  /** Reads an amount printed by `FormatAmount` back into cents: the glyph,
      an optional minus sign, then what `ParseUnsigned` accepts. */
  function ParseAmount(s: string): Option<int>
  {
    if |s| < 2 || s[0] != Currency then None
    else if s[1] == '-' then
      match ParseUnsigned(s[2..])
      case None => None
      case Some(v) => Some(-(v as int))
    else
      match ParseUnsigned(s[1..])
      case None => None
      case Some(v) => Some(v)
  }

  lemma UnsignedRoundTrip(m: nat)
    ensures ParseUnsigned(UnsignedFixed2(m)) == Some(m)
  {
    var s := UnsignedFixed2(m);
    assert s[..|s| - 3] == NatText(m / 100);
    DigitsValueOfNatText(m / 100);
  }

  /** The glyph, an optional minus sign and an unsigned text that does not
      itself start with a minus sign read as the unsigned value, signed. */
  lemma ParseSignedText(u: string, negative: bool)
    requires |u| > 0 && u[0] != '-'
    ensures var s := [Currency] + (if negative then "-" else "") + u;
      ParseAmount(s) == match ParseUnsigned(u)
        case None => None
        case Some(v) => Some(if negative then -(v as int) else v as int)
  {
    var s := [Currency] + (if negative then "-" else "") + u;
    if negative {
      assert s[2..] == u;
    } else {
      assert s[1..] == u;
    }
  }

  lemma Fixed2RoundTrip(n: int)
    ensures ParseAmount([Currency] + Fixed2(n)) == Some(n)
  {
    var m := if n < 0 then -n else n;
    var u := UnsignedFixed2(m);
    assert u[0] == NatText(m / 100)[0];
    UnsignedRoundTrip(m);
    ParseSignedText(u, n < 0);
    assert [Currency] + Fixed2(n) == [Currency] + (if n < 0 then "-" else "") + u;
  }

  /** Every printed amount reads back as the amount that was printed, an
      absent one as zero: the printed text loses no cents and no sign. */
  lemma FormatAmountRoundTrip(amount: Option<int>)
    ensures ParseAmount(FormatAmount(amount)) == Some(amount.GetOr(0))
  {
    if amount.None? {
      assert NatText(0) == "0";
      assert UnsignedFixed2(0) == "0.00";
      assert FormatAmount(amount) == [Currency] + Fixed2(0);
    }
    Fixed2RoundTrip(amount.GetOr(0));
  }

  /** Sample renderings: whole and fractional amounts, and a negative
      amount, which `toFixed` prints with its sign after the glyph. */
  lemma FormatAmountSamples()
    ensures FormatAmount(Some(10000)) == "¥100.00"
    ensures FormatAmount(Some(1234)) == "¥12.34"
    ensures FormatAmount(Some(-5)) == "¥-0.05"
  {
  }
}
