/** The value types of the renderer: `Vector3` with its operators, and the
    2D point `Vector2` whose coordinates may be infinite after projection. */
module Vectors {
  import opened Numeric

  /** A point or direction in space; z is the depth. */
  datatype Vector3 = Vector3(x: real, y: real, z: real)

  const Zero := Vector3(0.0, 0.0, 0.0)

  /** A screen coordinate as a `double` can hold it. The projection yields
      an infinite one when a vertex lies in the camera's depth plane, and
      not a number when, in addition, the vertex is straight ahead of the
      camera on that axis (infinity times zero). */
  datatype Coord = Finite(value: real) | Infinite | NotANumber

  /** x is the horizontal axis, y the vertical one. */
  datatype Vector2 = Vector2(x: Coord, y: Coord)

  function Add(lhs: Vector3, rhs: Vector3): Vector3
  {
    Vector3(lhs.x + rhs.x, lhs.y + rhs.y, lhs.z + rhs.z)
  }

  /** Subtraction undoes addition. */
  function Sub(lhs: Vector3, rhs: Vector3): (r: Vector3)
    ensures Add(r, rhs) == lhs
  {
    Vector3(lhs.x - rhs.x, lhs.y - rhs.y, lhs.z - rhs.z)
  }

  /** Scaling by one changes nothing; scaling by zero gives the zero vector. */
  function Scale(v: Vector3, k: real): (r: Vector3)
    ensures k == 1.0 ==> r == v
    ensures k == 0.0 ==> r == Zero
  {
    Vector3(v.x * k, v.y * k, v.z * k)
  }

  /** Division by a non-zero scalar undoes scaling by it. */
  function Div(v: Vector3, k: real): (r: Vector3)
    requires k != 0.0
    ensures Scale(r, k) == v
  {
    Vector3(v.x / k, v.y / k, v.z / k)
  }

  function Dot(lhs: Vector3, rhs: Vector3): (r: real)
    ensures lhs == rhs ==> r >= 0.0
  {
    lhs.x * rhs.x + lhs.y * rhs.y + lhs.z * rhs.z
  }

  /** The cross product is orthogonal to both of its operands. */
  function Cross(lhs: Vector3, rhs: Vector3): (r: Vector3)
    ensures Dot(r, lhs) == 0.0 && Dot(r, rhs) == 0.0
  {
    Vector3(lhs.y * rhs.z - lhs.z * rhs.y,
            lhs.z * rhs.x - lhs.x * rhs.z,
            lhs.x * rhs.y - lhs.y * rhs.x)
  }

  function NormSq(v: Vector3): real
  {
    Dot(v, v)
  }

  /** What `hypot(hypot(x, y), z)` returns, over the reals: the non-negative
      square root of the squared length. The model takes the magnitude as a
      function parameter constrained by this predicate. */
  ghost predicate IsEuclideanNorm(norm: Vector3 -> real)
  {
    forall v :: norm(v) >= 0.0 && norm(v) * norm(v) == NormSq(v)
  }

  /** A bound on a magnitude reads as a bound on the squared length. */
  lemma NormCompare(norm: Vector3 -> real, v: Vector3, bound: real)
    requires IsEuclideanNorm(norm) && bound >= 0.0
    ensures norm(v) > bound <==> NormSq(v) > bound * bound
  {
    var n := norm(v);
    assert n >= 0.0 && n * n == NormSq(v);
    RootCompare(n, NormSq(v), bound);
  }

  lemma RootCompare(n: real, sq: real, bound: real)
    requires n >= 0.0 && n * n == sq && bound >= 0.0
    ensures n > bound <==> sq > bound * bound
  {
    if n > bound {
      ProductPositive(n - bound, n + bound, (n - bound) * (n + bound));
      DifferenceOfSquares(n, bound);
    } else {
      MulNonNegative(bound - n, n + bound);
      DifferenceOfSquares(bound, n);
    }
  }

  /** `getUnitVector`: the vector divided by its magnitude, the magnitude
      (`getMagnitude`) being given as `norm`. */
  function UnitVector(v: Vector3, norm: Vector3 -> real): (r: Vector3)
    requires norm(v) != 0.0
    ensures Scale(r, norm(v)) == v
  {
    Div(v, norm(v))
  }

  /** With a Euclidean magnitude, the unit vector has length one. */
  lemma UnitVectorLength(v: Vector3, norm: Vector3 -> real)
    requires IsEuclideanNorm(norm) && norm(v) != 0.0
    ensures NormSq(UnitVector(v, norm)) == 1.0
  {
    var n := norm(v);
    var sq := NormSq(v);
    assert n * n == sq;
    QuotientSquares(v.x, v.y, v.z, n, sq);
  }

  /** Dividing each term of a sum of squares by `n` divides the sum by `n * n`. */
  lemma QuotientSquares(a: real, b: real, c: real, n: real, sq: real)
    requires n != 0.0 && n * n == sq && a * a + b * b + c * c == sq
    ensures (a / n) * (a / n) + (b / n) * (b / n) + (c / n) * (c / n) == 1.0
  {
    var p, q, r := a / n, b / n, c / n;
    assert a == p * n && b == q * n && c == r * n;
    var t := p * p + q * q + r * r;
    var nn := n * n;
    assert t * nn == a * a + b * b + c * c;
    SquareNonZero(n, nn);
    CancelFactor(t, nn);
  }
}
