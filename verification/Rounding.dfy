/** Rounding of integer money: half-up division, its signed form, and what both are to exact division. */
module Rounding {

  /** Rounding a non-negative quotient, as invoice lines do. */
  function RoundHalfUpDiv(numerator: nat, denominator: nat): nat
    requires denominator > 0
  {
    (numerator * 2 + denominator) / (denominator * 2)
  }

  /** Rounding a signed quotient, as price adjustments and increase shares do. */
  function RoundSigned(numerator: int, denominator: nat): int
    requires denominator > 0
  {
    var absolute := if numerator < 0 then -numerator else numerator;
    var rounded := (absolute + denominator / 2) / denominator;
    if numerator < 0 then -rounded else rounded
  }

  /** `r` is the integer nearest to the quotient, and the larger one when two are equally near. */
  predicate NearestHalfUp(numerator: nat, denominator: nat, r: nat) {
    denominator * (2 * r) - denominator <= 2 * numerator < denominator * (2 * r) + denominator
  }

  lemma Scale(d: nat, a: int, b: int)
    requires a <= b
    ensures d * a <= d * b
  {}

  lemma ScaleStrict(d: nat, a: int, b: int)
    requires d > 0 && d * a < d * b
    ensures a < b
  {
    if a >= b { Scale(d, b, a); }
  }

  lemma NearestIsUnique(n: nat, d: nat, r: nat, s: nat)
    requires d > 0 && NearestHalfUp(n, d, r) && NearestHalfUp(n, d, s)
    ensures r == s
  {
    if r < s { Scale(d, 2 * r + 2, 2 * s); }
    if s < r { Scale(d, 2 * s + 2, 2 * r); }
  }

  lemma DivisionHolds(n: nat, d: nat)
    requires d > 0
    ensures d * (n / d) <= n < d * (n / d) + d
  {}

  lemma HalfUpIsNearest(n: nat, d: nat)
    requires d > 0
    ensures NearestHalfUp(n, d, RoundHalfUpDiv(n, d))
  {
    DivisionHolds(n * 2 + d, d * 2);
    var r := RoundHalfUpDiv(n, d);
    assert (d * 2) * r == d * (2 * r);
  }

  lemma SignedIsNearest(n: nat, d: nat)
    requires d > 0
    ensures RoundSigned(n, d) >= 0 && NearestHalfUp(n, d, RoundSigned(n, d))
  {
    DivisionHolds(n + d / 2, d);
    var r := RoundSigned(n, d);
    assert d * (2 * r) == 2 * (d * r);
  }

  /** The two ways of rounding agree for every denominator, even or odd. */
  lemma SameRounding(n: nat, d: nat)
    requires d > 0
    ensures RoundSigned(n, d) == RoundHalfUpDiv(n, d)
  {
    HalfUpIsNearest(n, d);
    SignedIsNearest(n, d);
    NearestIsUnique(n, d, RoundSigned(n, d), RoundHalfUpDiv(n, d));
  }

  /** Rounding picks the nearest integer, and nothing else is it. */
  lemma HalfUpIff(n: nat, d: nat, r: nat)
    requires d > 0
    ensures r == RoundHalfUpDiv(n, d) <==> NearestHalfUp(n, d, r)
  {
    HalfUpIsNearest(n, d);
    if NearestHalfUp(n, d, r) { NearestIsUnique(n, d, r, RoundHalfUpDiv(n, d)); }
  }

  /** A rounded value is at most half a unit from the exact one, whatever the sign. */
  lemma SignedWithinHalf(n: int, d: nat)
    requires d > 0
    ensures 2 * d * RoundSigned(n, d) - d <= 2 * n <= 2 * d * RoundSigned(n, d) + d
  {
    var absolute := if n < 0 then -n else n;
    SignedIsNearest(absolute, d);
    var r := RoundSigned(absolute, d);
    assert d * (2 * r) == 2 * d * r;
    assert RoundSigned(n, d) == if n < 0 then -r else r;
    assert 2 * d * (-r) == -(2 * d * r);
  }

  lemma SignedIsOdd(n: int, d: nat)
    requires d > 0
    ensures RoundSigned(-n, d) == -RoundSigned(n, d)
  {
    assert n == 0 ==> (0 + d / 2) / d == 0 by { DivisionHolds(d / 2, d); ScaleStrict(d, (d / 2) / d, 1); }
  }

  lemma HalfUpIsMonotone(m: nat, n: nat, d: nat)
    requires d > 0 && m <= n
    ensures RoundHalfUpDiv(m, d) <= RoundHalfUpDiv(n, d)
  {
    var r, s := RoundHalfUpDiv(m, d), RoundHalfUpDiv(n, d);
    HalfUpIsNearest(m, d);
    HalfUpIsNearest(n, d);
    if s < r { Scale(d, 2 * s + 2, 2 * r); }
  }

  lemma SignedIsMonotone(m: int, n: int, d: nat)
    requires d > 0 && m <= n
    ensures RoundSigned(m, d) <= RoundSigned(n, d)
  {
    if m >= 0 {
      SameRounding(m, d);
      SameRounding(n, d);
      HalfUpIsMonotone(m, n, d);
    } else {
      SignedIsNearest(-m, d);
      if n < 0 {
        SameRounding(-m, d);
        SameRounding(-n, d);
        HalfUpIsMonotone(-n, -m, d);
      } else {
        SignedIsNearest(n, d);
      }
    }
  }

  /** A common factor of numerator and denominator does not matter. */
  lemma HalfUpCancels(n: nat, d: nat, k: nat)
    requires d > 0 && k > 0
    ensures k * d > 0 && RoundHalfUpDiv(k * n, k * d) == RoundHalfUpDiv(n, d)
  {
    var r := RoundHalfUpDiv(n, d);
    HalfUpIsNearest(n, d);
    assert k * d > 0;
    Scale(k, d * (2 * r) - d, 2 * n);
    Scale(k, 2 * n + 1, d * (2 * r) + d);
    assert k * (d * (2 * r) - d) == (k * d) * (2 * r) - k * d;
    assert k * (d * (2 * r) + d) == (k * d) * (2 * r) + k * d;
    assert k * (2 * n) == 2 * (k * n);
    assert k * (2 * n + 1) == 2 * (k * n) + k;
    HalfUpIff(k * n, k * d, r);
  }

  lemma HalfUpWhole(n: nat, d: nat)
    requires d > 0
    ensures RoundHalfUpDiv(d * n, d) == n
  {
    assert d * (2 * n) == 2 * (d * n);
    HalfUpIff(d * n, d, n);
  }

  // ---------------------------------------------------------------- the same rule written other ways

  /** The VAT of a solar contract line, at a rate in basis points. */
  function SolarVat(lineTotal: nat, vatRate: nat): nat {
    (2 * lineTotal * vatRate + 10_000) / 20_000
  }

  /** The prorated charge of a quantity increase: 20% of an original 100,000 IRR for the rest of the period. */
  function IncreaseShare(remaining: nat, period: nat): int
    requires period > 0
  {
    RoundSigned(100_000 * 2 * remaining, 10 * period)
  }

  lemma SolarVatIsHalfUp(lineTotal: nat, vatRate: nat)
    ensures NearestHalfUp(lineTotal * vatRate, 10_000, SolarVat(lineTotal, vatRate))
  {
    assert 2 * lineTotal * vatRate == lineTotal * vatRate * 2;
    HalfUpIsNearest(lineTotal * vatRate, 10_000);
  }

  /** A line of a solar contract; the review adds up the lines and their VAT. */
  datatype SolarLine = SolarLine(quantity: nat, unitPrice: nat, vatRate: nat, taxable: bool)

  function LineTotal(line: SolarLine): nat {
    line.quantity * line.unitPrice
  }

  function SolarSubtotal(lines: seq<SolarLine>): nat {
    if lines == [] then 0 else SolarSubtotal(lines[..|lines| - 1]) + LineTotal(lines[|lines| - 1])
  }

  function SolarVats(lines: seq<SolarLine>): nat {
    if lines == [] then 0
    else
      var last := lines[|lines| - 1];
      SolarVats(lines[..|lines| - 1]) + if last.taxable then SolarVat(LineTotal(last), last.vatRate) else 0
  }

  function SolarTotal(lines: seq<SolarLine>): nat {
    SolarSubtotal(lines) + SolarVats(lines)
  }

  /** The lines at their exact rates, times 10,000. */
  function ExactTotal(lines: seq<SolarLine>): nat {
    if lines == [] then 0
    else
      var last := lines[|lines| - 1];
      ExactTotal(lines[..|lines| - 1]) + 10_000 * LineTotal(last)
        + if last.taxable then LineTotal(last) * last.vatRate else 0
  }

  function Taxed(lines: seq<SolarLine>): nat {
    if lines == [] then 0 else Taxed(lines[..|lines| - 1]) + if lines[|lines| - 1].taxable then 1 else 0
  }

  /** The total of a solar review is off by at most half an IRR for each of its taxable lines. */
  lemma {:induction false} SolarTotalWithinHalfEach(lines: seq<SolarLine>)
    ensures -10_000 * Taxed(lines) <= 20_000 * SolarTotal(lines) - 2 * ExactTotal(lines) <= 10_000 * Taxed(lines)
  {
    if lines != [] {
      var n := |lines| - 1;
      SolarTotalWithinHalfEach(lines[..n]);
      SolarVatIsHalfUp(LineTotal(lines[n]), lines[n].vatRate);
    }
  }

  lemma IncreaseShareIsHalfUp(remaining: nat, period: nat)
    requires period > 0
    ensures IncreaseShare(remaining, period) >= 0
    ensures NearestHalfUp(20_000 * remaining, period, IncreaseShare(remaining, period))
  {
    assert 100_000 * 2 * remaining == 10 * (20_000 * remaining);
    SameRounding(10 * (20_000 * remaining), 10 * period);
    HalfUpCancels(20_000 * remaining, period, 10);
    HalfUpIsNearest(20_000 * remaining, period);
  }

  /** The charge for a whole period is a fifth of the original, and a longer rest never costs less. */
  lemma IncreaseShareIsMonotone(a: nat, b: nat, period: nat)
    requires period > 0 && a <= b
    ensures IncreaseShare(a, period) <= IncreaseShare(b, period)
    ensures IncreaseShare(period, period) == 20_000
  {
    var denominator := 10 * period;
    SignedIsMonotone(200_000 * a, 200_000 * b, denominator);
    assert 200_000 * period == denominator * 20_000;
    SameRounding(denominator * 20_000, denominator);
    HalfUpWhole(20_000, denominator);
  }
}
