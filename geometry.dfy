/** The cube in space: eight vertices, their centre, translation, the
    point-about-line rotation formula (as the program writes it, which
    `rotateAbout` uses, and corrected), and the face-centre axes that
    `rotateAbout` turns the cube around. The class `Cube3D` keeps the
    vertices in an array that its methods update in place; the functions
    here describe what those methods compute. */
module Geometry {
  import opened Numeric
  import opened Vectors

  /** The axis-aligned cube with opposite corners `lo` and `hi`, in the
      program's vertex order: 0-3 the front face counter-clockwise from the
      bottom-left corner, 4-7 the back face in the same order. */
  function Box(lo: Vector3, hi: Vector3): (r: seq<Vector3>)
    ensures |r| == 8
  {
    [Vector3(lo.x, lo.y, lo.z), Vector3(hi.x, lo.y, lo.z), Vector3(hi.x, hi.y, lo.z), Vector3(lo.x, hi.y, lo.z),
     Vector3(lo.x, lo.y, hi.z), Vector3(hi.x, lo.y, hi.z), Vector3(hi.x, hi.y, hi.z), Vector3(lo.x, hi.y, hi.z)]
  }

  /** The cube `main` starts with: a cube of side 5 spanning depths 5 to 10. */
  function ReferenceCube(): (r: seq<Vector3>)
    ensures |r| == 8
  {
    Box(Vector3(0.0, 0.0, 5.0), Vector3(5.0, 5.0, 10.0))
  }

  /** The cube the constructor builds when given no points. */
  function UnitCube(): (r: seq<Vector3>)
    ensures |r| == 8
  {
    Box(Zero, Vector3(1.0, 1.0, 1.0))
  }

  /** The points added up left to right, from the zero vector. */
  function Sum(ps: seq<Vector3>): Vector3
  {
    if |ps| == 0 then Zero else Add(Sum(ps[..|ps| - 1]), ps[|ps| - 1])
  }

  /** `k` copies of `d` added up. */
  function Times(d: Vector3, k: nat): Vector3
  {
    if k == 0 then Zero else Add(Times(d, k - 1), d)
  }

  /** What `getCenter` returns: the sum of the vertices divided by 8. */
  function Center(ps: seq<Vector3>): (r: Vector3)
    ensures Scale(r, 8.0) == Sum(ps)
  {
    Div(Sum(ps), 8.0)
  }

  /** What `translate` leaves in the array: each point moved by exactly `d`. */
  function TranslateAll(ps: seq<Vector3>, d: Vector3): (r: seq<Vector3>)
    ensures |r| == |ps|
    ensures forall i :: 0 <= i < |ps| ==> Sub(r[i], ps[i]) == d
  {
    seq(|ps|, i requires 0 <= i < |ps| => Add(ps[i], d))
  }

  /** Translating every point adds `|ps|` copies of `d` to the sum. */
  lemma {:induction false} SumTranslate(ps: seq<Vector3>, d: Vector3)
    ensures Sum(TranslateAll(ps, d)) == Add(Sum(ps), Times(d, |ps|))
    decreases |ps|
  {
    if |ps| > 0 {
      var n := |ps| - 1;
      var init, t := ps[..n], TranslateAll(ps, d);
      assert t[..n] == TranslateAll(init, d);
      assert Sub(t[n], ps[n]) == d;
      SumTranslate(init, d);
      assert Sum(t) == Add(Sum(TranslateAll(init, d)), t[n]);
    }
  }

  /** Translating the cube moves its centre by the same vector. */
  lemma CenterTranslate(ps: seq<Vector3>, d: Vector3)
    requires |ps| == 8
    ensures Center(TranslateAll(ps, d)) == Add(Center(ps), d)
  {
    SumTranslate(ps, d);
    TimesEight(d);
  }

  /** `k` copies of `d` added up are `d` scaled by `k`. */
  lemma {:induction false} TimesScale(d: Vector3, k: nat)
    ensures Times(d, k) == Scale(d, k as real)
  {
    if k > 0 {
      TimesScale(d, k - 1);
      var m := (k - 1) as real;
      assert d.x * m + d.x == d.x * (m + 1.0);
      assert d.y * m + d.y == d.y * (m + 1.0);
      assert d.z * m + d.z == d.z * (m + 1.0);
    }
  }

  lemma TimesEight(d: Vector3)
    ensures Times(d, 8) == Scale(d, 8.0)
  {
    assert Times(d, 1) == Vector3(1.0 * d.x, 1.0 * d.y, 1.0 * d.z);
    assert Times(d, 2) == Vector3(2.0 * d.x, 2.0 * d.y, 2.0 * d.z);
    assert Times(d, 3) == Vector3(3.0 * d.x, 3.0 * d.y, 3.0 * d.z);
    assert Times(d, 4) == Vector3(4.0 * d.x, 4.0 * d.y, 4.0 * d.z);
    assert Times(d, 5) == Vector3(5.0 * d.x, 5.0 * d.y, 5.0 * d.z);
    assert Times(d, 6) == Vector3(6.0 * d.x, 6.0 * d.y, 6.0 * d.z);
    assert Times(d, 7) == Vector3(7.0 * d.x, 7.0 * d.y, 7.0 * d.z);
    assert Times(d, 8) == Vector3(8.0 * d.x, 8.0 * d.y, 8.0 * d.z);
  }

  /** Two translations in a row are one translation by their sum. */
  lemma TranslateCompose(ps: seq<Vector3>, a: Vector3, b: Vector3)
    ensures TranslateAll(TranslateAll(ps, a), b) == TranslateAll(ps, Add(a, b))
  {
    var lhs, rhs := TranslateAll(TranslateAll(ps, a), b), TranslateAll(ps, Add(a, b));
    forall i | 0 <= i < |ps|
      ensures lhs[i] == rhs[i]
    {
      assert lhs[i] == Add(Add(ps[i], a), b);
    }
  }

  /** Translating by `a` and then by `-a` restores every point. */
  lemma TranslateInverse(ps: seq<Vector3>, a: Vector3, b: Vector3)
    requires Add(a, b) == Zero
    ensures TranslateAll(TranslateAll(ps, a), b) == ps
  {
    TranslateCompose(ps, a, b);
    TranslateZero(ps);
  }

  /** Translating by the zero vector changes nothing. */
  lemma TranslateZero(ps: seq<Vector3>)
    ensures TranslateAll(ps, Zero) == ps
  {
    var r := TranslateAll(ps, Zero);
    forall i | 0 <= i < |ps|
      ensures r[i] == ps[i]
    {
      assert Sub(r[i], ps[i]) == Zero;
    }
  }

  /** Translating an axis-aligned box gives the box between its translated corners. */
  lemma BoxTranslate(lo: Vector3, hi: Vector3, d: Vector3)
    ensures TranslateAll(Box(lo, hi), d) == Box(Add(lo, d), Add(hi, d))
  {
    var r, b := TranslateAll(Box(lo, hi), d), Box(Add(lo, d), Add(hi, d));
    forall i | 0 <= i < 8
      ensures r[i] == b[i]
    {
      assert Sub(r[i], Box(lo, hi)[i]) == d;
    }
  }

  /** `rotate` as the program writes it: the point `p` turned about the
      line through `q` with direction `d`, `cos` and `sin` being the cosine
      and sine of the angle. Its first reusable term is `u*x - v*y - w*z`. */
  function RotateAsWritten(p: Vector3, q: Vector3, d: Vector3, cos: real, sin: real): Vector3
  {
    var x, y, z := p.x, p.y, p.z;
    var a, b, c := q.x, q.y, q.z;
    var u, v, w := d.x, d.y, d.z;
    var t1 := u * x - v * y - w * z;
    var t2 := 1.0 - cos;
    Vector3((a * (v * v + w * w) - u * (b * v + c * w - t1)) * t2 + x * cos + (-c * v + b * w - w * y + v * z) * sin,
            (b * (u * u + w * w) - v * (a * u + c * w - t1)) * t2 + y * cos + (c * u - a * w + w * x - u * z) * sin,
            (c * (u * u + v * v) - w * (a * u + b * v - t1)) * t2 + z * cos + (-b * u + a * v - v * x + u * y) * sin)
  }

  /** A coordinate scaled by `2 cos - 1`: what the formula as written leaves
      of the coordinate a turn about that axis should keep. */
  function Stretched(v: real, c: real): real
  {
    v * (2.0 * c - 1.0)
  }

  /** About a line along y the sign of the first reusable term shows: x
      and z turn about the line as they should, but y is scaled by
      `2 cos - 1` instead of being kept. */
  lemma AsWrittenAlongY(p: Vector3, q: Vector3, c: real, s: real)
    ensures RotateAsWritten(p, q, Vector3(0.0, 1.0, 0.0), c, s)
            == Vector3(q.x + (p.x - q.x) * c + (p.z - q.z) * s,
                       Stretched(p.y, c),
                       q.z + (p.z - q.z) * c + (q.x - p.x) * s)
  {
    var r := RotateAsWritten(p, q, Vector3(0.0, 1.0, 0.0), c, s);
    assert r.x == q.x + (p.x - q.x) * c + (p.z - q.z) * s;
    assert r.y == p.y * (2.0 * c - 1.0);
    assert r.z == q.z + (p.z - q.z) * c + (q.x - p.x) * s;
  }

  /** About a line along z, likewise z is scaled by `2 cos - 1`. */
  lemma AsWrittenAlongZ(p: Vector3, q: Vector3, c: real, s: real)
    ensures RotateAsWritten(p, q, Vector3(0.0, 0.0, 1.0), c, s)
            == Vector3(q.x + (p.x - q.x) * c - (p.y - q.y) * s,
                       q.y + (p.y - q.y) * c + (p.x - q.x) * s,
                       Stretched(p.z, c))
  {
    var r := RotateAsWritten(p, q, Vector3(0.0, 0.0, 1.0), c, s);
    assert r.x == q.x + (p.x - q.x) * c - (p.y - q.y) * s;
    assert r.y == q.y + (p.y - q.y) * c + (p.x - q.x) * s;
    assert r.z == p.z * (2.0 * c - 1.0);
  }

  /** About a line along x the formula as written is exact: x is kept and
      (y, z) turns about (q.y, q.z). */
  lemma AsWrittenAlongX(p: Vector3, q: Vector3, c: real, s: real)
    ensures RotateAsWritten(p, q, Vector3(1.0, 0.0, 0.0), c, s)
            == Vector3(p.x,
                       q.y + (p.y - q.y) * c - (p.z - q.z) * s,
                       q.z + (p.z - q.z) * c + (p.y - q.y) * s)
  {
    var r := RotateAsWritten(p, q, Vector3(1.0, 0.0, 0.0), c, s);
    assert r.x == p.x;
    assert r.y == q.y + (p.y - q.y) * c - (p.z - q.z) * s;
    assert r.z == q.z + (p.z - q.z) * c + (p.y - q.y) * s;
  }

  /** A zero angle (cos 1, sin 0) leaves every point where it is, since the
      second reusable term `1 - cos` vanishes. */
  lemma AsWrittenIdentity(p: Vector3, q: Vector3, d: Vector3)
    ensures RotateAsWritten(p, q, d, 1.0, 0.0) == p
  {
  }

  /** A quarter turn (cos 0, sin 1) about the y axis through the origin
      moves the point (0, 1, 0), which lies on the axis, to (0, -1, 0);
      the corrected formula leaves it in place. */
  lemma AsWrittenMovesAxisPoint()
    ensures RotateAsWritten(Vector3(0.0, 1.0, 0.0), Zero, Vector3(0.0, 1.0, 0.0), 0.0, 1.0) == Vector3(0.0, -1.0, 0.0)
    ensures Rotate(Vector3(0.0, 1.0, 0.0), Zero, Vector3(0.0, 1.0, 0.0), 0.0, 1.0) == Vector3(0.0, 1.0, 0.0)
  {
    AsWrittenAlongY(Vector3(0.0, 1.0, 0.0), Zero, 0.0, 1.0);
    RotateAlongY(Vector3(0.0, 1.0, 0.0), Zero, 0.0, 1.0);
  }

  /** The rotation of a point about a line, with the first reusable term
      `u*x + v*y + w*z` of the point-about-line formula `rotate` follows;
      `cos` and `sin` are the cosine and sine of the angle. The intended
      turn of the cube, `IntendedRotationOf`, uses this one. */
  function Rotate(p: Vector3, q: Vector3, d: Vector3, cos: real, sin: real): (r: Vector3)
    ensures d == Direction(X) ==> r.x == p.x
    ensures d == Direction(Y) ==> r.y == p.y
    ensures d == Direction(Z) ==> r.z == p.z
  {
    var x, y, z := p.x, p.y, p.z;
    var a, b, c := q.x, q.y, q.z;
    var u, v, w := d.x, d.y, d.z;
    var t1 := u * x + v * y + w * z;
    var t2 := 1.0 - cos;
    Vector3((a * (v * v + w * w) - u * (b * v + c * w - t1)) * t2 + x * cos + (-c * v + b * w - w * y + v * z) * sin,
            (b * (u * u + w * w) - v * (a * u + c * w - t1)) * t2 + y * cos + (c * u - a * w + w * x - u * z) * sin,
            (c * (u * u + v * v) - w * (a * u + b * v - t1)) * t2 + z * cos + (-b * u + a * v - v * x + u * y) * sin)
  }

  /** A zero angle (cos 1, sin 0) leaves every point where it is. */
  lemma RotateIdentity(p: Vector3, q: Vector3, d: Vector3)
    ensures Rotate(p, q, d, 1.0, 0.0) == p
  {
  }

  /** About a line along x the rotation keeps x and turns (y, z) about
      (q.y, q.z). */
  lemma RotateAlongX(p: Vector3, q: Vector3, c: real, s: real)
    ensures Rotate(p, q, Vector3(1.0, 0.0, 0.0), c, s)
            == Vector3(p.x,
                       q.y + (p.y - q.y) * c - (p.z - q.z) * s,
                       q.z + (p.z - q.z) * c + (p.y - q.y) * s)
  {
    var r := Rotate(p, q, Vector3(1.0, 0.0, 0.0), c, s);
    assert r.x == p.x;
    assert r.y == q.y + (p.y - q.y) * c - (p.z - q.z) * s;
    assert r.z == q.z + (p.z - q.z) * c + (p.y - q.y) * s;
  }

  /** About a line along y it keeps y and turns (z, x) about (q.z, q.x). */
  lemma RotateAlongY(p: Vector3, q: Vector3, c: real, s: real)
    ensures Rotate(p, q, Vector3(0.0, 1.0, 0.0), c, s)
            == Vector3(q.x + (p.x - q.x) * c + (p.z - q.z) * s,
                       p.y,
                       q.z + (p.z - q.z) * c + (q.x - p.x) * s)
  {
    var r := Rotate(p, q, Vector3(0.0, 1.0, 0.0), c, s);
    assert r.x == q.x + (p.x - q.x) * c + (p.z - q.z) * s;
    assert r.y == p.y;
    assert r.z == q.z + (p.z - q.z) * c + (q.x - p.x) * s;
  }

  /** About a line along z it keeps z and turns (x, y) about (q.x, q.y). */
  lemma RotateAlongZ(p: Vector3, q: Vector3, c: real, s: real)
    ensures Rotate(p, q, Vector3(0.0, 0.0, 1.0), c, s)
            == Vector3(q.x + (p.x - q.x) * c - (p.y - q.y) * s,
                       q.y + (p.y - q.y) * c + (p.x - q.x) * s,
                       p.z)
  {
    var r := Rotate(p, q, Vector3(0.0, 0.0, 1.0), c, s);
    assert r.x == q.x + (p.x - q.x) * c - (p.y - q.y) * s;
    assert r.y == q.y + (p.y - q.y) * c + (p.x - q.x) * s;
    assert r.z == p.z;
  }

  /** The axes of `rotateAbout`, named after the program's `X_AXIS`,
      `Y_AXIS` and `Z_AXIS`. */
  datatype Axis = X | Y | Z

  /** The centre of the face with vertices i, j, k, l. */
  function FaceCenter(ps: seq<Vector3>, i: nat, j: nat, k: nat, l: nat): Vector3
    requires i < |ps| && j < |ps| && k < |ps| && l < |ps|
  {
    Div(Add(Add(Add(ps[i], ps[j]), ps[k]), ps[l]), 4.0)
  }

  /** The two opposite face centres an axis runs through: left to right
      for X, bottom to top for Y, front to back for Z. */
  function AxisEnds(ps: seq<Vector3>, axis: Axis): (Vector3, Vector3)
    requires |ps| == 8
  {
    match axis
    case X => (FaceCenter(ps, 0, 3, 4, 7), FaceCenter(ps, 1, 2, 5, 6))
    case Y => (FaceCenter(ps, 0, 1, 4, 5), FaceCenter(ps, 2, 3, 6, 7))
    case Z => (FaceCenter(ps, 0, 1, 2, 3), FaceCenter(ps, 4, 5, 6, 7))
  }

  /** The direction from the first face centre to the second. */
  function AxisSpan(ps: seq<Vector3>, axis: Axis): Vector3
    requires |ps| == 8
  {
    Sub(AxisEnds(ps, axis).1, AxisEnds(ps, axis).0)
  }

  /** On a box each axis runs along its own coordinate, from one face to
      the opposite one: X left to right, Y bottom to top, Z front to back. */
  lemma BoxAxes(lo: Vector3, hi: Vector3)
    ensures AxisSpan(Box(lo, hi), X) == Vector3(hi.x - lo.x, 0.0, 0.0)
    ensures AxisSpan(Box(lo, hi), Y) == Vector3(0.0, hi.y - lo.y, 0.0)
    ensures AxisSpan(Box(lo, hi), Z) == Vector3(0.0, 0.0, hi.z - lo.z)
  {
  }

  /** Translating the cube moves both face centres by the same vector, so
      the axis keeps its direction. */
  lemma AxisTranslate(ps: seq<Vector3>, axis: Axis, d: Vector3)
    requires |ps| == 8
    ensures AxisEnds(TranslateAll(ps, d), axis).0 == Add(AxisEnds(ps, axis).0, d)
    ensures AxisEnds(TranslateAll(ps, d), axis).1 == Add(AxisEnds(ps, axis).1, d)
    ensures AxisSpan(TranslateAll(ps, d), axis) == AxisSpan(ps, axis)
  {
    var t := TranslateAll(ps, d);
    assert t[0] == Add(ps[0], d) && t[1] == Add(ps[1], d) && t[2] == Add(ps[2], d) && t[3] == Add(ps[3], d);
    assert t[4] == Add(ps[4], d) && t[5] == Add(ps[5], d) && t[6] == Add(ps[6], d) && t[7] == Add(ps[7], d);
  }

  /** Every point turned about the same line by the same angle, with
      `rotate` as the program writes it. */
  function RotateAll(ps: seq<Vector3>, q: Vector3, d: Vector3, c: real, s: real): (r: seq<Vector3>)
    ensures |r| == |ps|
  {
    seq(|ps|, i requires 0 <= i < |ps| => RotateAsWritten(ps[i], q, d, c, s))
  }

  /** `rotateAbout` is defined when the two face centres of the axis are
      apart; otherwise the unit vector divides by a zero magnitude. */
  predicate Turnable(ps: seq<Vector3>, axis: Axis, norm: Vector3 -> real)
  {
    |ps| == 8 && norm(AxisSpan(ps, axis)) != 0.0
  }

  /** What `rotateAbout` leaves in the array: every point turned about the
      line through the first face centre, along the unit vector towards the
      second. */
  function RotationOf(ps: seq<Vector3>, axis: Axis, c: real, s: real, norm: Vector3 -> real): (r: seq<Vector3>)
    requires Turnable(ps, axis, norm)
    ensures |r| == 8
  {
    RotateAll(ps, AxisEnds(ps, axis).0, UnitVector(AxisSpan(ps, axis), norm), c, s)
  }

  /** Turning by a zero angle leaves the cube as it was. */
  lemma RotationIdentity(ps: seq<Vector3>, axis: Axis, norm: Vector3 -> real)
    requires Turnable(ps, axis, norm)
    ensures RotationOf(ps, axis, 1.0, 0.0, norm) == ps
  {
    var r := RotationOf(ps, axis, 1.0, 0.0, norm);
    var q, d := AxisEnds(ps, axis).0, UnitVector(AxisSpan(ps, axis), norm);
    forall i | 0 <= i < 8
      ensures r[i] == ps[i]
    {
      AsWrittenIdentity(ps[i], q, d);
    }
  }

  /** What `rotateAbout` would leave in the array with the corrected
      first reusable term. */
  function IntendedRotationOf(ps: seq<Vector3>, axis: Axis, c: real, s: real, norm: Vector3 -> real): (r: seq<Vector3>)
    requires Turnable(ps, axis, norm)
    ensures |r| == 8
  {
    var q, d := AxisEnds(ps, axis).0, UnitVector(AxisSpan(ps, axis), norm);
    seq(8, i requires 0 <= i < 8 => Rotate(ps[i], q, d, c, s))
  }

  /** The unit vector along the coordinate an axis is named after. */
  function Direction(axis: Axis): Vector3
  {
    match axis
    case X => Vector3(1.0, 0.0, 0.0)
    case Y => Vector3(0.0, 1.0, 0.0)
    case Z => Vector3(0.0, 0.0, 1.0)
  }

  /** The coordinate of `v` an axis is named after. */
  function Coordinate(v: Vector3, axis: Axis): real
  {
    match axis
    case X => v.x
    case Y => v.y
    case Z => v.z
  }

  /** Turning about a line along a coordinate keeps that coordinate. */
  lemma RotateKeepsCoordinate(p: Vector3, q: Vector3, axis: Axis, c: real, s: real)
    ensures Coordinate(Rotate(p, q, Direction(axis), c, s), axis) == Coordinate(p, axis)
  {
    match axis
    case X => RotateAlongX(p, q, c, s);
    case Y => RotateAlongY(p, q, c, s);
    case Z => RotateAlongZ(p, q, c, s);
  }

  /** A Euclidean magnitude of `h` units along a coordinate is `h`, and the
      unit vector is the coordinate's direction. */
  lemma UnitAlongCoordinate(axis: Axis, h: real, norm: Vector3 -> real)
    requires IsEuclideanNorm(norm) && h > 0.0
    ensures norm(Scale(Direction(axis), h)) == h
    ensures UnitVector(Scale(Direction(axis), h), norm) == Direction(axis)
  {
    var v := Scale(Direction(axis), h);
    var n := norm(v);
    assert n >= 0.0 && n * n == NormSq(v);
    var hh := h * h;
    assert NormSq(v) == hh;
    RootUnique(n, h, hh);
    DivSelf(h, h);
    DivZero(0.0, h);
    match axis
    case X => assert v == Vector3(h, 0.0, 0.0);
    case Y => assert v == Vector3(0.0, h, 0.0);
    case Z => assert v == Vector3(0.0, 0.0, h);
  }

  /** `rotateAbout` on a cube whose axis runs `h > 0` units along its
      coordinate: turning about the x axis keeps every vertex's x, but
      turning about the y or z axis scales every vertex's y or z by
      `2 cos - 1`, towards or away from zero. */
  lemma TurnAsWritten(ps: seq<Vector3>, axis: Axis, h: real, c: real, s: real, norm: Vector3 -> real)
    requires IsEuclideanNorm(norm) && |ps| == 8 && h > 0.0
    requires AxisSpan(ps, axis) == Scale(Direction(axis), h)
    ensures Turnable(ps, axis, norm)
    ensures axis == X ==> forall i :: 0 <= i < 8 ==> RotationOf(ps, axis, c, s, norm)[i].x == ps[i].x
    ensures axis == Y ==> forall i :: 0 <= i < 8 ==> RotationOf(ps, axis, c, s, norm)[i].y == Stretched(ps[i].y, c)
    ensures axis == Z ==> forall i :: 0 <= i < 8 ==> RotationOf(ps, axis, c, s, norm)[i].z == Stretched(ps[i].z, c)
  {
    UnitAlongCoordinate(axis, h, norm);
    var q := AxisEnds(ps, axis).0;
    assert RotationOf(ps, axis, c, s, norm) == RotateAll(ps, q, Direction(axis), c, s);
    match axis
    case X => RotateAllAlongX(ps, q, c, s);
    case Y => RotateAllAlongY(ps, q, c, s);
    case Z => RotateAllAlongZ(ps, q, c, s);
  }

  lemma RotateAllAlongX(ps: seq<Vector3>, q: Vector3, c: real, s: real)
    ensures forall i :: 0 <= i < |ps| ==> RotateAll(ps, q, Vector3(1.0, 0.0, 0.0), c, s)[i].x == ps[i].x
  {
    forall i | 0 <= i < |ps|
      ensures RotateAll(ps, q, Vector3(1.0, 0.0, 0.0), c, s)[i].x == ps[i].x
    {
      AsWrittenAlongX(ps[i], q, c, s);
    }
  }

  lemma RotateAllAlongY(ps: seq<Vector3>, q: Vector3, c: real, s: real)
    ensures forall i :: 0 <= i < |ps| ==> RotateAll(ps, q, Vector3(0.0, 1.0, 0.0), c, s)[i].y == Stretched(ps[i].y, c)
  {
    forall i | 0 <= i < |ps|
      ensures RotateAll(ps, q, Vector3(0.0, 1.0, 0.0), c, s)[i].y == Stretched(ps[i].y, c)
    {
      AsWrittenAlongY(ps[i], q, c, s);
    }
  }

  lemma RotateAllAlongZ(ps: seq<Vector3>, q: Vector3, c: real, s: real)
    ensures forall i :: 0 <= i < |ps| ==> RotateAll(ps, q, Vector3(0.0, 0.0, 1.0), c, s)[i].z == Stretched(ps[i].z, c)
  {
    forall i | 0 <= i < |ps|
      ensures RotateAll(ps, q, Vector3(0.0, 0.0, 1.0), c, s)[i].z == Stretched(ps[i].z, c)
    {
      AsWrittenAlongZ(ps[i], q, c, s);
    }
  }

  /** With the corrected term, turning a cube whose axis runs `h > 0` units
      along its coordinate keeps that coordinate of every vertex: the cube
      turns in the plane of the other two. */
  lemma TurnKeepsCoordinate(ps: seq<Vector3>, axis: Axis, h: real, c: real, s: real, norm: Vector3 -> real)
    requires IsEuclideanNorm(norm) && |ps| == 8 && h > 0.0
    requires AxisSpan(ps, axis) == Scale(Direction(axis), h)
    ensures Turnable(ps, axis, norm)
    ensures forall i :: 0 <= i < 8 ==> Coordinate(IntendedRotationOf(ps, axis, c, s, norm)[i], axis) == Coordinate(ps[i], axis)
  {
    UnitAlongCoordinate(axis, h, norm);
    var q := AxisEnds(ps, axis).0;
    forall i | 0 <= i < 8
      ensures Coordinate(IntendedRotationOf(ps, axis, c, s, norm)[i], axis) == Coordinate(ps[i], axis)
    {
      RotateKeepsCoordinate(ps[i], q, axis, c, s);
    }
  }

  /** A cube of eight vertices whose array the methods update in place. */
  class Cube3D {
    const point: array<Vector3>

    /** The constructor given eight points copies them. */
    constructor (data: seq<Vector3>)
      requires |data| == 8
      ensures point.Length == 8 && point[..] == data
      ensures fresh(point)
    {
      var a := new Vector3[8](_ => Zero);
      for i := 0 to 8
        invariant a[..i] == data[..i]
      {
        a[i] := data[i];
      }
      point := a;
    }

    /** The constructor given no points builds the unit cube. */
    constructor Unit()
      ensures point.Length == 8 && point[..] == UnitCube()
      ensures fresh(point)
    {
      point := new Vector3[8][
        Vector3(0.0, 0.0, 0.0), Vector3(1.0, 0.0, 0.0), Vector3(1.0, 1.0, 0.0), Vector3(0.0, 1.0, 0.0),
        Vector3(0.0, 0.0, 1.0), Vector3(1.0, 0.0, 1.0), Vector3(1.0, 1.0, 1.0), Vector3(0.0, 1.0, 1.0)];
    }

    /** `getCenter`: accumulates the vertices, then divides by 8. */
    method GetCenter() returns (center: Vector3)
      requires point.Length == 8
      ensures center == Center(point[..])
    {
      var sum := Zero;
      for i := 0 to 8
        invariant sum == Sum(point[..i])
      {
        assert point[..i + 1][..i] == point[..i];
        sum := Add(sum, point[i]);
      }
      assert point[..8] == point[..];
      center := Div(sum, 8.0);
    }

    /** `translate`: moves every vertex by `distance`, in place. */
    method Translate(distance: Vector3)
      requires point.Length == 8
      modifies point
      ensures point[..] == TranslateAll(old(point[..]), distance)
    {
      for i := 0 to 8
        invariant point[..i] == TranslateAll(old(point[..]), distance)[..i]
        invariant point[i..] == old(point[..])[i..]
      {
        point[i] := Add(point[i], distance);
      }
    }

    /** `rotateAbout`: picks the axis' two face centres, takes the unit
        vector between them, and turns every vertex about the line through
        the first, in place. `c` and `s` are the cosine and sine of the
        angle. */
    method RotateAbout(axis: Axis, c: real, s: real, norm: Vector3 -> real)
      requires point.Length == 8 && Turnable(point[..], axis, norm)
      modifies point
      ensures point[..] == RotationOf(old(point[..]), axis, c, s, norm)
    {
      var p1, p2;
      match axis {
        case X =>
          p1 := Div(Add(Add(Add(point[0], point[3]), point[4]), point[7]), 4.0);
          p2 := Div(Add(Add(Add(point[1], point[2]), point[5]), point[6]), 4.0);
        case Y =>
          p1 := Div(Add(Add(Add(point[0], point[1]), point[4]), point[5]), 4.0);
          p2 := Div(Add(Add(Add(point[2], point[3]), point[6]), point[7]), 4.0);
        case Z =>
          p1 := Div(Add(Add(Add(point[0], point[1]), point[2]), point[3]), 4.0);
          p2 := Div(Add(Add(Add(point[4], point[5]), point[6]), point[7]), 4.0);
      }
      assert (p1, p2) == AxisEnds(point[..], axis);
      var d := UnitVector(Sub(p2, p1), norm);
      for i := 0 to 8
        invariant point[..i] == RotationOf(old(point[..]), axis, c, s, norm)[..i]
        invariant point[i..] == old(point[..])[i..]
      {
        point[i] := RotateAsWritten(point[i], p1, d, c, s);
      }
    }
  }
}
