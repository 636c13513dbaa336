/** Coin arithmetic (types/coin.go). A coin is an unbounded integer; `sdk.Rat`
    is an exact rational, here a `real`. */
module Coins {

  /** Rational to coin with banker's rounding: the nearest integer, the even
      one of two equally near. */
  function RatToCoin(x: real): (c: int)
    ensures -0.5 <= c as real - x <= 0.5
    ensures c as real - x == 0.5 || c as real - x == -0.5 ==> c % 2 == 0
  {
    var low := x.Floor;
    var rest := x - low as real;
    if rest < 0.5 then low
    else if rest > 0.5 then low + 1
    else if low % 2 == 0 then low
    else low + 1
  }

  /** `Rat.Round(PrecisionFactor)`: seven decimals, same tie rule. */
  function Round(x: real): real {
    RatToCoin(x * 10000000.0) as real / 10000000.0
  }

  /** Half of the last of seven decimals. */
  const HALF_DECIMAL := 0.00000005

  lemma RatToCoinMonotone(x: real, y: real)
    requires x <= y
    ensures RatToCoin(x) <= RatToCoin(y)
  {
  }

  lemma RatToCoinOfInteger(n: int)
    ensures RatToCoin(n as real) == n
  {
  }

  /** Two integer bounds on a rational are bounds on its rounding. */
  lemma RatToCoinBetween(low: int, x: real, high: int)
    requires low as real <= x <= high as real
    ensures low <= RatToCoin(x) <= high
  {
    RatToCoinMonotone(low as real, x);
    RatToCoinMonotone(x, high as real);
  }

  /** Two rationals less than `n` apart round to coins at most `n` apart. Both
      the strictness and the tie rule matter: 0.5 and 1.5 round to 0 and 2. */
  lemma RatToCoinGap(x: real, y: real, n: int)
    requires x <= y < x + n as real || x == y
    requires 0 <= n
    ensures 0 <= RatToCoin(y) - RatToCoin(x) <= n
  {
    RatToCoinMonotone(x, y);
  }

  lemma RoundBetween(low: int, x: real, high: int)
    requires low as real <= x <= high as real
    ensures low as real <= Round(x) <= high as real
    ensures x == low as real ==> Round(x) == low as real
    ensures x == high as real ==> Round(x) == high as real
  {
    RatToCoinBetween(low * 10000000, x * 10000000.0, high * 10000000);
  }

  /** Rounding to seven decimals moves a rational by at most half of the last one. */
  lemma RoundIsNear(x: real)
    ensures -HALF_DECIMAL <= Round(x) - x <= HALF_DECIMAL
  {
    hide RatToCoin;
    assert -0.5 <= RatToCoin(x * 10000000.0) as real - x * 10000000.0 <= 0.5;
  }

  // --------------------------------------------------------- shares of a coin

  function Quotient(x: real, d: real): real
    requires d != 0.0
  {
    x / d
  }

  function Product(a: real, b: real): real {
    a * b
  }

  function Times(coin: int, rate: real): real {
    coin as real * rate
  }

  /** A share of a coin amount, rounded to a coin. */
  function PartOf(coin: int, rate: real): int {
    RatToCoin(Times(coin, rate))
  }

  lemma DivideSelf(d: real)
    requires d != 0.0
    ensures Quotient(d, d) == 1.0
  {
  }

  lemma DivideZero(d: real)
    requires d != 0.0
    ensures Quotient(0.0, d) == 0.0
  {
  }

  lemma QuotientMonotone(x: real, y: real, d: real)
    requires x <= y && 0.0 < d
    ensures Quotient(x, d) <= Quotient(y, d)
  {
  }

  lemma QuotientBetween(x: real, d: real)
    requires 0.0 <= x <= d && 0.0 < d
    ensures 0.0 <= Quotient(x, d) <= 1.0
    ensures x == d ==> Quotient(x, d) == 1.0
    ensures x == 0.0 ==> Quotient(x, d) == 0.0
  {
    hide Quotient;
    DivideSelf(d);
    DivideZero(d);
    QuotientMonotone(0.0, x, d);
    QuotientMonotone(x, d, d);
  }

  lemma ProductOfIntegers(i: int, w: int)
    ensures Product(i as real, w as real) == (i * w) as real
  {
  }

  lemma ProductOfGap(i: real, x: real, w: real)
    ensures Product(i - x, w) == Product(i, w) - Product(x, w)
  {
  }

  lemma ProductScales(gap: real, bound: real, w: real)
    requires 0.0 <= w && -bound <= gap <= bound
    ensures -Product(bound, w) <= Product(gap, w) <= Product(bound, w)
  {
  }

  lemma ProductMonotone(a: real, x: real, y: real)
    requires 0.0 <= a && x <= y
    ensures a * x <= a * y
  {
  }

  lemma FractionOf(a: real, u: real)
    requires 0.0 <= a && 0.0 <= u <= 1.0
    ensures 0.0 <= a * u <= a
    ensures u == 1.0 ==> a * u == a
    ensures u == 0.0 ==> a * u == 0.0
  {
    assert 0.0 <= a * (1.0 - u);
  }

  lemma ProductOfBoth(a: real, x: real, b: real, y: real)
    requires 0.0 <= a <= b && 0.0 <= x <= y
    ensures a * x <= b * y
  {
    ProductMonotone(a, x, y);
    ProductMonotone(y, a, b);
  }

  lemma TimesFraction(coin: int, rate: real)
    requires 0 <= coin && 0.0 <= rate <= 1.0
    ensures 0.0 <= Times(coin, rate) <= coin as real
    ensures rate == 1.0 ==> Times(coin, rate) == coin as real
    ensures rate == 0.0 ==> Times(coin, rate) == 0.0
  {
    FractionOf(coin as real, rate);
  }

  lemma TimesMonotone(a: int, x: real, b: int, y: real)
    requires 0 <= a <= b && 0.0 <= x <= y
    ensures Times(a, x) <= Times(b, y)
  {
    ProductOfBoth(a as real, x, b as real, y);
  }

  lemma TimesGap(a: int, b: int, rate: real)
    requires 0 <= a <= b && 0.0 <= rate <= 1.0
    ensures Times(a, rate) <= Times(b, rate)
    ensures rate < 1.0 && a < b ==> Times(b, rate) < Times(a, rate) + (b - a) as real
  {
    var gap := (b - a) as real;
    assert Times(b, rate) - Times(a, rate) == gap * rate;
    assert rate < 1.0 && a < b ==> 0.0 < gap * (1.0 - rate);
    FractionOf(gap, rate);
  }

  /** `part` is a coin nearest to the share `rate` of `coin`. */
  predicate Near(part: int, coin: int, rate: real) {
    -0.5 <= part as real - Times(coin, rate) <= 0.5
  }

  lemma PartIsNear(coin: int, rate: real)
    ensures Near(PartOf(coin, rate), coin, rate)
  {
    hide RatToCoin, Times;
  }

  /** If the rate is off by at most `bound`, the part is off by at most half a coin
      and `bound` of the whole. */
  lemma PartOfNearRate(coin: int, rate: real, exact: real, bound: real)
    requires 0 <= coin && -bound <= rate - exact <= bound
    ensures var error := PartOf(coin, rate) as real - Times(coin, exact);
      -0.5 - Times(coin, bound) <= error <= 0.5 + Times(coin, bound)
  {
    hide RatToCoin, Times;
    TimesOfGap(coin, rate, exact, bound);
  }

  lemma TimesOfGap(coin: int, rate: real, exact: real, bound: real)
    requires 0 <= coin && -bound <= rate - exact <= bound
    ensures -Times(coin, bound) <= Times(coin, rate) - Times(coin, exact) <= Times(coin, bound)
  {
    var c := coin as real;
    ProductMonotone(c, rate - exact, bound);
    ProductMonotone(c, -bound, rate - exact);
    assert c * (rate - exact) == c * rate - c * exact && c * -bound == -(c * bound);
  }

  /** A part lies between nothing and the whole, and is exact at both ends. */
  lemma PartBetween(coin: int, rate: real)
    requires 0 <= coin && 0.0 <= rate <= 1.0
    ensures 0 <= PartOf(coin, rate) <= coin
    ensures rate == 1.0 ==> PartOf(coin, rate) == coin
    ensures rate == 0.0 ==> PartOf(coin, rate) == 0
  {
    hide RatToCoin, Times;
    TimesFraction(coin, rate);
    RatToCoinBetween(0, Times(coin, rate), coin);
    RatToCoinOfInteger(coin);
    RatToCoinOfInteger(0);
  }

  lemma PartMonotone(a: int, x: real, b: int, y: real)
    requires 0 <= a <= b && 0.0 <= x <= y
    ensures PartOf(a, x) <= PartOf(b, y)
  {
    hide RatToCoin, Times;
    TimesMonotone(a, x, b, y);
    RatToCoinMonotone(Times(a, x), Times(b, y));
  }

  /** The part of a larger amount is larger by at most the difference, although
      both are rounded. */
  lemma PartGap(a: int, b: int, rate: real)
    requires 0 <= a <= b && 0.0 <= rate <= 1.0
    ensures 0 <= PartOf(b, rate) - PartOf(a, rate) <= b - a
  {
    hide RatToCoin, Times;
    TimesGap(a, b, rate);
    if rate == 1.0 {
      PartBetween(a, rate);
      PartBetween(b, rate);
    } else {
      RatToCoinGap(Times(a, rate), Times(b, rate), b - a);
    }
  }
}
