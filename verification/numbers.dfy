/** Money rounding and decimal-number parsing. Amounts are exact reals. */
module Numbers {
  import opened Wrappers
  import opened Text

  /** pandas' `round(2)`: to the nearest cent, halves rounded up. */
  function Round2(x: real): real {
    ((x * 100.0 + 0.5).Floor as real) / 100.0
  }

  /** A rounded amount is a whole number of cents within half a cent of the
      amount, rounding is idempotent and keeps the sign of a non-negative
      amount. */
  lemma Round2Facts(x: real)
    ensures x >= 0.0 ==> Round2(x) >= 0.0
    ensures x - 0.005 < Round2(x) <= x + 0.005
    ensures Round2(Round2(x)) == Round2(x)
    ensures Round2(0.0) == 0.0
  {
    var k := (x * 100.0 + 0.5).Floor;
    assert Round2(x) * 100.0 == k as real;
    assert Round2(x) * 100.0 + 0.5 == k as real + 0.5;
    assert (k as real + 0.5).Floor == k;
  }

  /** Rounding never reverses the order of two amounts. */
  lemma Round2Monotone(x: real, y: real)
    requires x <= y
    ensures Round2(x) <= Round2(y)
  {
    assert (x * 100.0 + 0.5).Floor <= (y * 100.0 + 0.5).Floor;
  }

  function DigitValue(c: char): nat
    requires IsDigit(c)
  {
    c as int - '0' as int
  }

  function DigitChar(d: nat): (c: char)
    requires d < 10
    ensures IsDigit(c) && DigitValue(c) == d
  {
    ('0' as int + d) as char
  }

  /** The value of a string of decimal digits ("" reads as 0). */
  function ParseNat(ds: string): nat
    requires AllDigits(ds)
    decreases |ds|
  {
    if ds == [] then 0 else ParseNat(ds[..|ds| - 1]) * 10 + DigitValue(ds[|ds| - 1])
  }

  /** The decimal digits of `n`, without leading zeros. */
  function DigitsOf(n: nat): (ds: string)
    ensures |ds| >= 1 && AllDigits(ds)
    decreases n
  {
    if n < 10 then [DigitChar(n)] else DigitsOf(n / 10) + [DigitChar(n % 10)]
  }

  /** Reading the digits of a number gives the number back. */
  lemma {:induction false} ParseDigitsOf(n: nat)
    ensures ParseNat(DigitsOf(n)) == n
    decreases n
  {
    if n >= 10 {
      ParseDigitsOf(n / 10);
      var ds := DigitsOf(n);
      assert ds[..|ds| - 1] == DigitsOf(n / 10);
    }
  }

  function Pow10(k: nat): (p: nat)
    ensures p >= 1
  {
    if k == 0 then 1 else 10 * Pow10(k - 1)
  }

  /** The position of the first `c` in `s`. */
  function IndexOf(s: string, c: char): (i: nat)
    requires c in s
    ensures i < |s| && s[i] == c && c !in s[..i]
    decreases |s|
  {
    if s[0] == c then 0 else 1 + IndexOf(s[1..], c)
  }

  /** An unsigned decimal: digits, optionally one `.` and more digits, with
      at least one digit in all ("5.", ".5" and "5" are numbers). */
  function ParseUnsigned(s: string): (r: Option<real>)
    ensures r.Some? ==> r.value >= 0.0
  {
    if '.' in s then
      var i := IndexOf(s, '.');
      var a, b := s[..i], s[i + 1..];
      if AllDigits(a) && AllDigits(b) && |a| + |b| > 0 then
        Some(ParseNat(a) as real + (ParseNat(b) as real) / (Pow10(|b|) as real))
      else None
    else if s != [] && AllDigits(s) then Some(ParseNat(s) as real)
    else None
  }

  /** `pd.to_numeric(s, errors='coerce')` on a plain decimal string with an
      optional sign; anything else is NaN (`None`). */
  function ParseNumber(s: string): Option<real> {
    if |s| > 0 && (s[0] == '-' || s[0] == '+') then
      match ParseUnsigned(s[1..])
      case None => None
      case Some(v) => Some(if s[0] == '-' then -v else v)
    else ParseUnsigned(s)
  }

  /** The two digits of a number of cents. */
  function TwoDigits(c: nat): (ds: string)
    requires c < 100
    ensures |ds| == 2 && AllDigits(ds) && ParseNat(ds) == c
  {
    var ds := [DigitChar(c / 10), DigitChar(c % 10)];
    assert ds[..1] == [DigitChar(c / 10)];
    assert ParseNat(ds[..1]) == c / 10 by {
      assert ds[..1][..0] == [];
    }
    ds
  }

  /** A number written with a `.` before two decimals of cents parses to its
      value. */
  lemma ParseDecimalText(n: nat, c: nat)
    requires c < 100
    ensures ParseNumber(DigitsOf(n) + "." + TwoDigits(c)) == Some(n as real + c as real / 100.0)
  {
    var d := DigitsOf(n);
    var s := d + "." + TwoDigits(c);
    assert s[0] == d[0];
    assert '.' !in d;
    assert s[|d|] == '.' && s[..|d|] == d;
    assert IndexOf(s, '.') == |d|;
    assert s[|d| + 1..] == TwoDigits(c);
    ParseDigitsOf(n);
    assert Pow10(2) == 100;
  }
}
