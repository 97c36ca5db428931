/**
 * The static exchange-rate table and the two conversions the eligibility checker offers:
 * `ConvertCurrency` (amounts, rounded to cents) and `GetCurrencyRate` (rates, rounded to
 * four places). USD is the pivot; a code missing from the table silently gets rate 1.0.
 */
module Currency {
  import Rounding

  /** Units of each currency per US dollar. */
  const CurrencyRates: map<string, real> := map[
    "USD" := 1.0,
    "EUR" := 0.92,
    "GBP" := 0.79,
    "CAD" := 1.36,
    "AUD" := 1.52,
    "SGD" := 1.34,
    "AED" := 3.67,
    "CHF" := 0.88
  ]

  /** The table lookup with its fallback: an unknown code counts as worth one dollar. */
  function RateOf(code: string): (r: real)
    ensures 0.79 <= r <= 3.67
    ensures code !in CurrencyRates ==> r == 1.0
    ensures code in CurrencyRates ==> r == CurrencyRates[code]
  {
    if code in CurrencyRates then CurrencyRates[code] else 1.0
  }

  /**
   * Converts `amount` from one currency to another through USD. Equal codes return the
   * amount untouched; otherwise the result is the exact conversion rounded to cents.
   */
  function ConvertCurrency(amount: real, fromCurrency: string, toCurrency: string): (r: real)
    ensures fromCurrency == toCurrency ==> r == amount
    ensures fromCurrency != toCurrency ==>
      -0.005 <= r - amount / RateOf(fromCurrency) * RateOf(toCurrency) <= 0.005
      && (r * 100.0).Floor as real == r * 100.0
  {
    if fromCurrency == toCurrency then amount
    else ConvertAt(amount, RateOf(fromCurrency), RateOf(toCurrency))
  }

  /** Conversion at two given rates: into US dollars, then out, rounded to cents. */
  function ConvertAt(amount: real, fromRate: real, toRate: real): (r: real)
    requires fromRate > 0.0
    ensures -0.005 <= r - amount / fromRate * toRate <= 0.005
    ensures (r * 100.0).Floor as real == r * 100.0
  {
    var inUsd := amount / fromRate;
    Rounding.Round2(inUsd * toRate)
  }

  /** The rate from one currency to another: 1.0 for equal codes, else rounded to four places. */
  function GetCurrencyRate(fromCurrency: string, toCurrency: string): (r: real)
    ensures fromCurrency == toCurrency ==> r == 1.0
    ensures fromCurrency != toCurrency ==>
      -0.00005 <= r - RateOf(toCurrency) / RateOf(fromCurrency) <= 0.00005
    ensures fromCurrency != toCurrency ==> (r * 10000.0).Floor as real == r * 10000.0
  {
    if fromCurrency == toCurrency then 1.0
    else Rounding.Round4(RateOf(toCurrency) / RateOf(fromCurrency))
  }

  /** The ratio of two values of the table's range [0.79, 3.67] lies in (0.2, 4.7). */
  lemma RatioRange(n: real, d: real)
    requires 0.79 <= n <= 3.67 && 0.79 <= d <= 3.67
    ensures 0.2 < n / d < 4.7
  {
    var q := n / d;
    assert q * d == n;
    MulCancel(q, 4.7, d);
    assert 0.2 * d < n;
    MulCancel(0.2, q, d);
  }

  lemma MulCancel(u: real, v: real, c: real)
    requires c > 0.0 && u * c < v * c
    ensures u < v
  {
    if u >= v {
      MulMonotone(v, u, c);
    }
  }

  lemma MulMonotone(u: real, v: real, c: real)
    requires u <= v && c >= 0.0
    ensures u * c <= v * c
  {
    assert (v - u) * c >= 0.0;
  }

  /** The ratio of any two rates of the table (fallback included) lies in (0.2, 4.7). */
  lemma RatioBounds(a: string, b: string)
    ensures 0.2 < RateOf(a) / RateOf(b) < 4.7
  {
    RatioRange(RateOf(a), RateOf(b));
  }

  /** |e * q| <= bound * limit whenever |e| <= bound and 0 <= q <= limit. */
  lemma ScaledErrorBound(e: real, bound: real, q: real, limit: real)
    requires -bound <= e <= bound && 0.0 <= q <= limit
    ensures -bound * limit <= e * q <= bound * limit
  {
    if e >= 0.0 {
      assert e * q <= bound * q <= bound * limit;
    } else {
      assert -e * q <= bound * q <= bound * limit;
    }
  }

  /** Converting back multiplies the first leg's rounding error by the inverse rate ratio. */
  lemma RoundTripAlgebra(x: real, y: real, ra: real, rb: real)
    requires ra > 0.0 && rb > 0.0
    ensures y / rb * ra == x + (y - x / ra * rb) * (ra / rb)
  {
    var q := ra / rb;
    assert q * rb == ra;
    assert x / ra * ra == x;
    calc {
      (y - x / ra * rb) * q;
      y * q - (x / ra) * (rb * q);
      y * q - x;
    }
  }

  lemma ProductExpansion(p: real, p': real, q: real, q': real)
    requires q * q' == 1.0
    ensures p * p' - 1.0 == (p - q) * q' + (p' - q') * q + (p - q) * (p' - q')
  {
  }

  /** The arithmetic of a round trip, for any two rates of the table's range. */
  lemma RoundTripBound(x: real, y: real, z: real, ra: real, rb: real)
    requires 0.79 <= ra <= 3.67 && 0.79 <= rb <= 3.67
    requires -0.005 <= y - x / ra * rb <= 0.005
    requires -0.005 <= z - y / rb * ra <= 0.005
    ensures -0.03 <= z - x <= 0.03
  {
    var first, second := y - x / ra * rb, z - y / rb * ra;
    RoundTripAlgebra(x, y, ra, rb);
    assert z - x == second + first * (ra / rb);
    RatioRange(ra, rb);
    ScaledErrorBound(first, 0.005, ra / rb, 4.7);
    assert -0.0235 <= first * (ra / rb) <= 0.0235;
  }

  /**
   * Converting there and back returns the original amount to within three cents: each leg
   * rounds by at most half a cent, and the first leg's rounding is scaled by a rate ratio
   * below 4.7 on the way back.
   */
  lemma {:induction false} ConversionRoundTrip(x: real, a: string, b: string)
    ensures -0.03 <= ConvertCurrency(ConvertCurrency(x, a, b), b, a) - x <= 0.03
  {
    if a != b {
      RoundTripAt(x, RateOf(a), RateOf(b));
    }
  }

  /** The round trip at any two rates of the table's range. */
  lemma RoundTripAt(x: real, ra: real, rb: real)
    requires 0.79 <= ra <= 3.67 && 0.79 <= rb <= 3.67
    ensures -0.03 <= ConvertAt(ConvertAt(x, ra, rb), rb, ra) - x <= 0.03
  {
    var y := ConvertAt(x, ra, rb);
    RoundTripBound(x, y, ConvertAt(y, rb, ra), ra, rb);
  }

  /** The arithmetic of the reciprocal rates, for any two rates of the table's range. */
  lemma ReciprocalBound(p: real, p': real, ra: real, rb: real)
    requires 0.79 <= ra <= 3.67 && 0.79 <= rb <= 3.67
    requires -0.00005 <= p - rb / ra <= 0.00005
    requires -0.00005 <= p' - ra / rb <= 0.00005
    ensures -0.001 < p * p' - 1.0 < 0.001
  {
    var q, q' := rb / ra, ra / rb;
    var e1, e2 := p - q, p' - q';
    assert q * q' == 1.0 by {
      assert q * ra == rb;
      assert q' * rb == ra;
    }
    RatioRange(rb, ra);
    RatioRange(ra, rb);
    ScaledErrorBound(e1, 0.00005, q', 4.7);
    ScaledErrorBound(e2, 0.00005, q, 4.7);
    if e2 >= 0.0 {
      ScaledErrorBound(e1, 0.00005, e2, 0.00005);
    } else {
      ScaledErrorBound(-e1, 0.00005, -e2, 0.00005);
      assert -e1 * -e2 == e1 * e2;
    }
    assert -0.00000001 <= e1 * e2 <= 0.00000001;
    assert -0.0003 <= e1 * q' <= 0.0003;
    assert -0.0003 <= e2 * q <= 0.0003;
    ProductExpansion(p, p', q, q');
    assert p * p' - 1.0 == e1 * q' + e2 * q + e1 * e2;
  }

  /**
   * The rate in one direction times the rate in the other is 1 to within 0.001, for every
   * pair of codes, known or not.
   */
  lemma {:induction false} RateReciprocal(a: string, b: string)
    ensures -0.001 < GetCurrencyRate(a, b) * GetCurrencyRate(b, a) - 1.0 < 0.001
  {
    if a != b {
      ReciprocalLegs(a, b);
    }
  }

  lemma ReciprocalLegs(a: string, b: string)
    requires a != b
    ensures -0.001 < GetCurrencyRate(a, b) * GetCurrencyRate(b, a) - 1.0 < 0.001
  {
    ReciprocalBound(GetCurrencyRate(a, b), GetCurrencyRate(b, a), RateOf(a), RateOf(b));
  }

  /** A larger amount never converts to a smaller one. */
  lemma {:induction false} ConvertMonotone(x: real, y: real, a: string, b: string)
    requires x <= y
    ensures ConvertCurrency(x, a, b) <= ConvertCurrency(y, a, b)
  {
    if a != b {
      MonotoneAt(x, y, RateOf(a), RateOf(b));
    }
  }

  /** Conversion at fixed positive rates preserves order. */
  lemma MonotoneAt(x: real, y: real, ra: real, rb: real)
    requires ra > 0.0 && rb > 0.0 && x <= y
    ensures ConvertAt(x, ra, rb) <= ConvertAt(y, ra, rb)
  {
    DivMulMonotone(x, y, ra, rb);
    Rounding.Round2Monotone(x / ra * rb, y / ra * rb);
    ConvertAtRounds(x, ra, rb);
    ConvertAtRounds(y, ra, rb);
  }

  lemma ConvertAtRounds(x: real, ra: real, rb: real)
    requires ra > 0.0
    ensures ConvertAt(x, ra, rb) == Rounding.Round2(x / ra * rb)
  {
  }

  lemma DivMulMonotone(x: real, y: real, ra: real, rb: real)
    requires ra > 0.0 && rb > 0.0 && x <= y
    ensures x / ra * rb <= y / ra * rb
  {
    assert x / ra <= y / ra;
  }

  /** Between two codes missing from the table, conversion only rounds to cents. */
  lemma UnknownCodesOnlyRound(x: real, a: string, b: string)
    requires a !in CurrencyRates && b !in CurrencyRates && a != b
    ensures ConvertCurrency(x, a, b) == Rounding.Round2(x)
  {
  }

  /** The dollar/euro pair: 0.92 one way, 1.087 the other, product within 0.01 of 1. */
  lemma UsdEurRates()
    ensures GetCurrencyRate("USD", "EUR") == 0.92
    ensures GetCurrencyRate("EUR", "USD") == 1.087
    ensures -0.01 < GetCurrencyRate("USD", "EUR") * GetCurrencyRate("EUR", "USD") - 1.0 < 0.01
  {
    assert RateOf("EUR") == 0.92 && RateOf("USD") == 1.0;
    assert (0.92 * 10000.0).Floor == 9200;
    assert (1.0 / 0.92 * 10000.0).Floor == 10869;
  }
}
