/** Scalar helpers of the renderer: the linear range map, rounding, the
    fractional parts used for antialiasing, and the conversion of a
    floating value to an int parameter (which truncates toward zero).
    All of them work on `real`, which stands for the program's `double`. */
module Numeric {

  function Abs(x: real): (r: real)
    ensures r >= 0.0 && (r == x || r == -x)
  {
    if x < 0.0 then -x else x
  }

  /** `floor`: the greatest integer not above x. */
  function Floor(x: real): (r: int)
    ensures r as real <= x < r as real + 1.0
  {
    x.Floor
  }

  /** `round(x) = floor(x + 0.5)`: the nearest integer, halves rounded up. */
  function Round(x: real): (r: int)
    ensures r as real - 0.5 <= x < r as real + 0.5
  {
    Floor(x + 0.5)
  }

  /** Conversion of a `double` to an `int` parameter: truncation toward zero. */
  function Trunc(x: real): int
  {
    if x >= 0.0 then Floor(x) else -Floor(-x)
  }

  /** Truncation drops the fractional part of the magnitude and keeps the sign. */
  lemma TruncBounds(x: real)
    ensures Abs(Trunc(x) as real) <= Abs(x) < Abs(Trunc(x) as real) + 1.0
    ensures (x >= 0.0 ==> Trunc(x) >= 0) && (x <= 0.0 ==> Trunc(x) <= 0)
  {
  }

  /** `fPart`: the fractional part, always in [0, 1), with an integer remainder. */
  function FPart(x: real): (r: real)
    ensures 0.0 <= r < 1.0
    ensures x - r == Floor(x) as real
  {
    x - Floor(x) as real
  }

  /** `rfPart`: the complement of the fractional part, in (0, 1]. */
  function RfPart(x: real): (r: real)
    ensures 0.0 < r <= 1.0
    ensures r + FPart(x) == 1.0
  {
    1.0 - FPart(x)
  }

  /** `mapDouble`: the affine map that sends [valMin, valMax] onto
      [mappedMin, mappedMax]. The division needs valMax != valMin. */
  function MapDouble(valToMap: real, valMin: real, valMax: real, mappedMin: real, mappedMax: real): (r: real)
    requires valMax != valMin
    ensures valToMap == valMin ==> r == mappedMin
    ensures valToMap == valMax ==> r == mappedMax
  {
    MapEnds(valToMap, valMin, valMax, mappedMin, mappedMax);
    ((valToMap - valMin) / (valMax - valMin)) * (mappedMax - mappedMin) + mappedMin
  }

  lemma MapEnds(v: real, lo: real, hi: real, m0: real, m1: real)
    requires hi != lo
    ensures v == lo ==> ((v - lo) / (hi - lo)) * (m1 - m0) + m0 == m0
    ensures v == hi ==> ((v - lo) / (hi - lo)) * (m1 - m0) + m0 == m1
  {
    if v == lo {
      DivZero(v - lo, hi - lo);
      MulZero((v - lo) / (hi - lo), m1 - m0);
    }
    if v == hi {
      DivSelf(v - lo, hi - lo);
      MulOne((v - lo) / (hi - lo), m1 - m0);
    }
  }

  // Facts of real arithmetic the solver does not combine on its own; each
  // names the product or quotient it is about.

  lemma DivZero(n: real, d: real)
    requires n == 0.0 && d != 0.0
    ensures n / d == 0.0
  {
  }

  lemma DivSelf(n: real, d: real)
    requires n == d && d != 0.0
    ensures n / d == 1.0
  {
  }

  lemma MulZero(t: real, x: real)
    requires t == 0.0
    ensures t * x == 0.0
  {
  }

  lemma MulOne(t: real, x: real)
    requires t == 1.0
    ensures t * x == x
  {
  }

  lemma ProductPositive(a: real, b: real, p: real)
    requires a > 0.0 && b > 0.0 && p == a * b
    ensures p > 0.0
  {
  }

  lemma MulNonNegative(a: real, b: real)
    requires a >= 0.0 && b >= 0.0
    ensures a * b >= 0.0
  {
  }

  lemma DifferenceOfSquares(a: real, b: real)
    ensures (a - b) * (a + b) == a * a - b * b
  {
  }

  lemma SquareNonZero(n: real, sq: real)
    requires n != 0.0 && n * n == sq
    ensures sq != 0.0
  {
    if n > 0.0 {
      ProductPositive(n, n, sq);
    } else {
      ProductPositive(-n, -n, sq);
    }
  }

  lemma CancelFactor(t: real, sq: real)
    requires sq != 0.0 && t * sq == sq
    ensures t == 1.0
  {
    assert (t - 1.0) * sq == 0.0;
  }

  lemma RootNonZero(n: real, sq: real)
    requires sq > 0.0 && n * n == sq
    ensures n != 0.0
  {
    if n == 0.0 {
      MulZero(n, n);
      assert false;
    }
  }

  lemma RootUnique(n: real, h: real, sq: real)
    requires n >= 0.0 && h > 0.0 && n * n == sq && h * h == sq
    ensures n == h
  {
    DifferenceOfSquares(n, h);
    var sum := n + h;
    ProductZero(n - h, sum, (n - h) * sum);
  }

  lemma ProductZero(a: real, b: real, p: real)
    requires b != 0.0 && p == a * b && p == 0.0
    ensures a == 0.0
  {
  }

  /** The map keeps order when both ranges are increasing. */
  lemma MapDoubleMonotone(a: real, b: real, valMin: real, valMax: real, mappedMin: real, mappedMax: real)
    requires valMin < valMax && mappedMin < mappedMax && a < b
    ensures MapDouble(a, valMin, valMax, mappedMin, mappedMax) < MapDouble(b, valMin, valMax, mappedMin, mappedMax)
  {
    var span := valMax - valMin;
    var ta, tb := (a - valMin) / span, (b - valMin) / span;
    assert tb - ta == (b - a) / span;
    assert ta < tb;
    assert (tb - ta) * (mappedMax - mappedMin) > 0.0;
  }

  /** The midpoint of the source range goes to the midpoint of the target range. */
  lemma MapDoubleMidpoint(valMin: real, valMax: real, mappedMin: real, mappedMax: real)
    requires valMax != valMin
    ensures MapDouble((valMin + valMax) / 2.0, valMin, valMax, mappedMin, mappedMax) == (mappedMin + mappedMax) / 2.0
  {
    var span := valMax - valMin;
    assert ((valMin + valMax) / 2.0 - valMin) / span == 0.5;
  }

  /** Interior rows pass a `double` to an `int` parameter: for a non-negative
      row the two rows written are consecutive, but just below zero they coincide. */
  lemma TruncRows(y: real)
    ensures y >= 0.0 ==> Trunc(y + 1.0) == Trunc(y) + 1
    ensures -1.0 < y < 0.0 ==> Trunc(y) == 0 && Trunc(y + 1.0) == 0
  {
  }
}
