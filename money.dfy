/** Money arithmetic on integer cents. The program keeps amounts as
    floating-point pesos and rounds with `Math.round(x * 100) / 100`; on
    whole cents that rounding is the identity, and the only roundings left
    are those of a product or a quotient, written out here. */
module Money {
  import opened Text

  /** Tax rate, 16 percent. */
  const TaxPercent: int := 16

  /** `Math.round(subtotal * 0.16 * 100) / 100` in cents: the tax is the
      whole number of cents nearest to 16% of the subtotal, halves going up. */
  function Tax(subtotal: int): (t: int)
    ensures 100 * t <= TaxPercent * subtotal + 50 < 100 * t + 100
  {
    (TaxPercent * subtotal + 50) / 100
  }

  lemma TaxNonNegative(subtotal: int)
    requires subtotal >= 0
    ensures 0 <= Tax(subtotal) && 100 * Tax(subtotal) <= 16 * subtotal + 50
  {
  }

  /** `Math.round(n / d)` for a positive divisor: the nearest integer to the
      quotient, halves going up. */
  function RoundDiv(n: int, d: int): (r: int)
    requires d > 0
    ensures 2 * d * r <= 2 * n + d < 2 * d * r + 2 * d
  {
    var q := (2 * n + d) / (2 * d);
    assert 2 * d * q <= 2 * n + d < 2 * d * q + 2 * d by {
      DivBounds(2 * n + d, 2 * d);
    }
    q
  }

  lemma DivBounds(x: int, y: int)
    requires y > 0
    ensures y * (x / y) <= x < y * (x / y) + y
  {
  }

  /** `amount.toFixed(2)` for an amount in cents: an optional minus sign,
      the whole pesos, a point and exactly two digits of cents. */
  function Fixed2(c: int): (r: string)
    ensures |r| >= 4 && r[|r| - 3] == '.'
    ensures r[0] == '-' <==> c < 0
  {
    var a := if c < 0 then -c else c;
    (if c < 0 then "-" else "") + NatToString(a / 100) + "." + [DigitChar(a % 100 / 10), DigitChar(a % 10)]
  }

  /** Reading back a `toFixed(2)` rendering into cents. */
  function ParseFixed2(s: string): int
  {
    var neg := |s| > 0 && s[0] == '-';
    var b := if neg then s[1..] else s;
    if |b| < 3 then 0
    else
      var v := ParseNat(b[..|b| - 3]) * 100 + DigitValue(b[|b| - 2]) * 10 + DigitValue(b[|b| - 1]);
      if neg then -v else v
  }

  lemma DigitRoundTrip(d: nat)
    requires d < 10
    ensures DigitValue(DigitChar(d)) == d
  {
  }

  lemma CentsDigits(a: nat)
    ensures (a / 100) * 100 + (a % 100 / 10) * 10 + a % 10 == a
  {
  }

  /** The unsigned body of a `toFixed(2)` rendering reads back as its cents. */
  lemma UnsignedRoundTrip(a: nat)
    ensures var b := NatToString(a / 100) + "." + [DigitChar(a % 100 / 10), DigitChar(a % 10)];
      |b| >= 3 && ParseNat(b[..|b| - 3]) * 100 + DigitValue(b[|b| - 2]) * 10 + DigitValue(b[|b| - 1]) == a
  {
    var w := NatToString(a / 100);
    var b := w + "." + [DigitChar(a % 100 / 10), DigitChar(a % 10)];
    assert b[..|b| - 3] == w;
    ParseNatToString(a / 100);
    DigitRoundTrip(a % 100 / 10);
    DigitRoundTrip(a % 10);
    CentsDigits(a);
  }

  lemma Fixed2RoundTrip(c: int)
    ensures ParseFixed2(Fixed2(c)) == c
  {
    var a := if c < 0 then -c else c;
    var b := NatToString(a / 100) + "." + [DigitChar(a % 100 / 10), DigitChar(a % 10)];
    UnsignedRoundTrip(a);
    if c < 0 {
      assert Fixed2(c) == "-" + b;
      assert ("-" + b)[1..] == b;
    } else {
      assert Fixed2(c) == b;
      assert b[0] != '-';
    }
  }
}
