/** The parts of Python's `decimal` module the order sizer relies on: decimal numbers written
    as a coefficient and an exponent, and `quantize` with the two rounding modes
    `ROUND_UP` (away from zero) and `ROUND_HALF_EVEN` (to nearest, ties to even).
    Every value is an exact rational (`real`); the 28-digit context precision is not modelled. */
module Decimals {

  function Pow10(n: nat): (r: nat)
    ensures r >= 1
  {
    if n == 0 then 1 else 10 * Pow10(n - 1)
  }

  /** The place value 10^e of a decimal exponent e. */
  function Unit(e: int): (u: real)
    ensures u > 0.0
  {
    if e >= 0 then Pow10(e) as real else 1.0 / (Pow10(-e) as real)
  }

  /** A Python `Decimal` with its coefficient and exponent kept apart, so that
      `Decimal(str(d))` keeps d's own exponent (0.010 has exponent -3, 0.01 has -2). */
  datatype Dec = Dec(coefficient: nat, exponent: int)
  {
    function Value(): real {
      (coefficient as real) * Unit(exponent)
    }
  }

  /** ROUND_UP: round away from zero to an integer. */
  function RoundUp(x: real): (k: int)
    ensures x >= 0.0 ==> x <= k as real < x + 1.0
    ensures x < 0.0 ==> x - 1.0 < k as real <= x
  {
    if x >= 0.0 then -((-x).Floor) else x.Floor
  }

  predicate IsEven(k: int) {
    k % 2 == 0
  }

  /** ROUND_HALF_EVEN: round to the nearest integer, a tie going to the even neighbour. */
  function RoundHalfEven(x: real): (k: int)
    ensures -0.5 <= k as real - x <= 0.5
    ensures k as real - x == 0.5 || x - k as real == 0.5 ==> IsEven(k)
  {
    var n := x.Floor;
    var f := x - n as real;
    if f < 0.5 then n
    else if f > 0.5 then n + 1
    else if IsEven(n) then n
    else n + 1
  }

  /** No other integer rounds x to nearest-ties-to-even: the two ensures clauses of
      RoundHalfEven determine its result. */
  lemma RoundHalfEvenUnique(x: real, k: int)
    requires -0.5 <= k as real - x <= 0.5
    requires k as real - x == 0.5 || x - k as real == 0.5 ==> IsEven(k)
    ensures k == RoundHalfEven(x)
  {
  }

  datatype Rounding = RoundingUp | RoundingHalfEven

  function Round(x: real, mode: Rounding): int {
    match mode
    case RoundingUp => RoundUp(x)
    case RoundingHalfEven => RoundHalfEven(x)
  }

  /** `x.quantize(Decimal(10^e), rounding=mode)`: x rounded to a whole number of units 10^e. */
  function Quantize(x: real, e: int, mode: Rounding): real
  {
    (Round(x / Unit(e), mode) as real) * Unit(e)
  }

  /** The multiple of u that Quantize returns lies within one unit of x, on the far side
      from zero for ROUND_UP ... */
  lemma QuantizeUpBounds(x: real, e: int)
    requires x >= 0.0
    ensures var q := Quantize(x, e, RoundingUp);
      x <= q < x + Unit(e)
  {
    var u := Unit(e);
    DivNonnegative(x, u);
    var k := RoundUp(x / u);
    assert Quantize(x, e, RoundingUp) == (k as real) * u;
    UpWithin(x, u, k as real);
  }

  /** ... and it is the least multiple of 10^e that is not below x. */
  lemma QuantizeUpLeast(x: real, e: int, m: int)
    requires x >= 0.0
    requires (m as real) * Unit(e) >= x
    ensures Quantize(x, e, RoundingUp) <= (m as real) * Unit(e)
  {
    QuantizeUpUnfold(x, e);
    UpLeast(x, Unit(e), m);
  }

  lemma QuantizeUpUnfold(x: real, e: int)
    ensures Quantize(x, e, RoundingUp) == (RoundUp(x / Unit(e)) as real) * Unit(e)
  {
  }

  /** ... and within half a unit of x for ROUND_HALF_EVEN ... */
  lemma QuantizeHalfEvenBounds(x: real, e: int)
    ensures var q := Quantize(x, e, RoundingHalfEven);
      -0.5 * Unit(e) <= q - x <= 0.5 * Unit(e)
  {
    var u := Unit(e);
    var k := RoundHalfEven(x / u);
    assert Quantize(x, e, RoundingHalfEven) == (k as real) * u;
    HalfWithin(x, u, k as real);
  }

  /** ... and, when x lies exactly halfway between two multiples of 10^e, an even multiple. */
  lemma QuantizeHalfEvenTies(x: real, e: int)
    ensures var q := Quantize(x, e, RoundingHalfEven);
      q - x == 0.5 * Unit(e) || x - q == 0.5 * Unit(e) ==>
        exists n: int :: IsEven(n) && q == (n as real) * Unit(e)
  {
    QuantizeHalfEvenUnfold(x, e);
    HalfEvenTie(x, Unit(e));
  }

  /** x / u rounded half-even and scaled back is an even multiple of u on a tie. */
  lemma HalfEvenTie(x: real, u: real)
    requires u > 0.0
    ensures var q := (RoundHalfEven(x / u) as real) * u;
      q - x == 0.5 * u || x - q == 0.5 * u ==> exists n: int :: IsEven(n) && q == (n as real) * u
  {
    var k := RoundHalfEven(x / u);
    HalfEvenMultiple(x, u, k);
    var q := (k as real) * u;
    if q - x == 0.5 * u || x - q == 0.5 * u {
      assert IsEven(k) && q == (k as real) * u;
    }
  }

  lemma QuantizeHalfEvenUnfold(x: real, e: int)
    ensures Quantize(x, e, RoundingHalfEven) == (RoundHalfEven(x / Unit(e)) as real) * Unit(e)
  {
  }

  /** A tie at k * u is a tie at k. */
  lemma HalfEvenMultiple(x: real, u: real, k: int)
    requires u > 0.0
    requires k as real - x / u == 0.5 || x / u - k as real == 0.5 ==> IsEven(k)
    ensures (k as real) * u - x == 0.5 * u || x - (k as real) * u == 0.5 * u ==> IsEven(k)
  {
    var y := x / u;
    assert y * u == x;
    assert (k as real) * u - x == (k as real - y) * u;
    assert x - (k as real) * u == (y - k as real) * u;
    if (k as real) * u - x == 0.5 * u {
      MulCancel(k as real - y, 0.5, u);
    } else if x - (k as real) * u == 0.5 * u {
      MulCancel(y - k as real, 0.5, u);
    }
  }

  lemma MulCancel(a: real, b: real, u: real)
    requires u > 0.0 && a * u == b * u
    ensures a == b
  {
    assert (a - b) * u == 0.0;
  }

  lemma DivNonnegative(x: real, u: real)
    requires u > 0.0 && x >= 0.0
    ensures x / u >= 0.0
  {
  }

  /** A k at most one above x / u scales to at most one unit u above x. */
  lemma UpWithin(x: real, u: real, k: real)
    requires u > 0.0
    requires x / u <= k < x / u + 1.0
    ensures x <= k * u < x + u
  {
    var y := x / u;
    var d := k - y;
    assert y * u == x;
    assert k * u == x + d * u;
    assert 0.0 <= d * u;
    assert u - d * u == (1.0 - d) * u;
    assert 0.0 < (1.0 - d) * u;
  }

  /** x / u rounded up is at most any whole m with m * u >= x. */
  lemma UpLeast(x: real, u: real, m: int)
    requires x >= 0.0 && u > 0.0
    requires (m as real) * u >= x
    ensures (RoundUp(x / u) as real) * u <= (m as real) * u
  {
    DivNonnegative(x, u);
    var k := RoundUp(x / u);
    DivBelow(x, m as real, u);
    CeilingLeast(x / u, k, m);
    MulMonotone(k as real, m as real, u);
  }

  /** A k within one half of x / u scales to within half a unit u of x. */
  lemma HalfWithin(x: real, u: real, k: real)
    requires u > 0.0
    requires -0.5 <= k - x / u <= 0.5
    ensures -0.5 * u <= k * u - x <= 0.5 * u
  {
    var y := x / u;
    var d := k - y;
    assert y * u == x;
    assert k * u - x == d * u;
    MulNonnegative(0.5 - d, u);
    MulNonnegative(d + 0.5, u);
    assert (0.5 - d) * u == 0.5 * u - d * u;
    assert (d + 0.5) * u == d * u + 0.5 * u;
  }

  lemma MulNonnegative(a: real, u: real)
    requires a >= 0.0 && u > 0.0
    ensures a * u >= 0.0
  {
  }

  lemma DivBelow(x: real, m: real, u: real)
    requires u > 0.0 && m * u >= x
    ensures x / u <= m
  {
    assert m * u / u == m;
  }

  /** An integer below y + 1 is not above any integer at least y. */
  lemma CeilingLeast(y: real, k: int, m: int)
    requires k as real < y + 1.0 && y <= m as real
    ensures k <= m
  {
  }

  lemma MulMonotone(a: real, b: real, u: real)
    requires u > 0.0 && a <= b
    ensures a * u <= b * u
  {
  }
}
