/** `perspectiveProjection`: every vertex seen from the camera, divided by
    its depth, and mapped from [-1, 1] onto the screen. The camera looks
    along +z with the display surface at `e = (0, 0, 1)`, a 90 degree field
    of view. */
module Projection {
  import opened Numeric
  import opened Vectors
  import opened Geometry

  /** The display surface relative to the camera. */
  const E := Vector3(0.0, 0.0, 1.0)

  /** One screen coordinate of a vertex whose offset from the camera is
      `num` along the axis and `dz` in depth: `(e.z / dz) * num - offset`,
      mapped from [-1, 1] onto [0, screen]. At zero depth the division gives
      an infinity, which the product with a zero offset or the map onto an
      empty screen turns into not a number. */
  function ProjectCoord(num: real, offset: real, dz: real, screen: real): (r: Coord)
    ensures r.Finite? <==> dz != 0.0
    ensures r.NotANumber? <==> dz == 0.0 && (num == 0.0 || screen == 0.0)
  {
    if dz == 0.0 then
      if num == 0.0 || screen == 0.0 then NotANumber else Infinite
    else
      Finite(MapDouble((E.z / dz) * num - offset, -1.0, 1.0, 0.0, screen))
  }

  /** The screen point of the vertex `p` seen from `camera`. */
  function ProjectPoint(p: Vector3, camera: Vector3, screenWidth: real, screenHeight: real): (r: Vector2)
    ensures r.x.Finite? <==> p.z != camera.z
    ensures r.y.Finite? <==> p.z != camera.z
  {
    var d := Sub(p, camera);
    Vector2(ProjectCoord(d.x, E.x, d.z, screenWidth), ProjectCoord(d.y, E.y, d.z, screenHeight))
  }

  /** The projected cube: the screen point of each vertex, in order. */
  function ProjectAll(ps: seq<Vector3>, camera: Vector3, screenWidth: real, screenHeight: real): (r: seq<Vector2>)
    ensures |r| == |ps|
  {
    seq(|ps|, i requires 0 <= i < |ps| => ProjectPoint(ps[i], camera, screenWidth, screenHeight))
  }

  /** `perspectiveProjection`: starts from the default flat cube and
      overwrites each of its eight points with the projection of the
      matching vertex. */
  method PerspectiveProjection(cube: Cube3D, camera: Vector3, screenWidth: real, screenHeight: real)
    returns (cube2D: seq<Vector2>)
    requires cube.point.Length == 8
    ensures cube2D == ProjectAll(cube.point[..], camera, screenWidth, screenHeight)
  {
    var point := new Vector2[8][
      Vector2(Finite(0.0), Finite(0.0)), Vector2(Finite(1.0), Finite(0.0)),
      Vector2(Finite(1.0), Finite(1.0)), Vector2(Finite(0.0), Finite(1.0)),
      Vector2(Finite(0.0), Finite(0.0)), Vector2(Finite(1.0), Finite(0.0)),
      Vector2(Finite(1.0), Finite(1.0)), Vector2(Finite(0.0), Finite(1.0))];
    for i := 0 to 8
      invariant point[..i] == ProjectAll(cube.point[..], camera, screenWidth, screenHeight)[..i]
    {
      var d := Sub(cube.point[i], camera);
      var px := ProjectCoord(d.x, E.x, d.z, screenWidth);
      var py := ProjectCoord(d.y, E.y, d.z, screenHeight);
      point[i] := Vector2(px, py);
    }
    cube2D := point[..];
  }

  /** Moving the cube and the camera together leaves the picture as it was:
      only the offset from the camera matters. */
  lemma ProjectTranslate(ps: seq<Vector3>, camera: Vector3, t: Vector3, screenWidth: real, screenHeight: real)
    ensures ProjectAll(TranslateAll(ps, t), Add(camera, t), screenWidth, screenHeight)
            == ProjectAll(ps, camera, screenWidth, screenHeight)
  {
    var moved := TranslateAll(ps, t);
    forall i | 0 <= i < |ps|
      ensures Sub(moved[i], Add(camera, t)) == Sub(ps[i], camera)
    {
      assert Sub(moved[i], ps[i]) == t;
    }
  }

  /** In front of the camera (positive depth) on a non-empty screen, a
      vertex left of the camera lands left of the screen's middle, one in
      line with it exactly in the middle, and one to the right right of it;
      behind the camera (negative depth) the picture is mirrored. */
  lemma ProjectSide(num: real, dz: real, screen: real)
    requires dz != 0.0 && screen > 0.0
    ensures var v := ProjectCoord(num, 0.0, dz, screen).value;
            (num == 0.0 ==> v == screen / 2.0)
            && ((dz > 0.0 && num < 0.0) || (dz < 0.0 && num > 0.0) ==> v < screen / 2.0)
            && ((dz > 0.0 && num > 0.0) || (dz < 0.0 && num < 0.0) ==> v > screen / 2.0)
  {
    var b := (E.z / dz) * num - 0.0;
    MapDoubleMidpoint(-1.0, 1.0, 0.0, screen);
    assert MapDouble(0.0, -1.0, 1.0, 0.0, screen) == screen / 2.0;
    SignOfQuotient(num, dz);
    if b < 0.0 {
      MapDoubleMonotone(b, 0.0, -1.0, 1.0, 0.0, screen);
    } else if b > 0.0 {
      MapDoubleMonotone(0.0, b, -1.0, 1.0, 0.0, screen);
    }
  }

  /** The sign of `(1 / dz) * num` is the sign of `num` times the sign of `dz`. */
  lemma SignOfQuotient(num: real, dz: real)
    requires dz != 0.0
    ensures num == 0.0 ==> (1.0 / dz) * num == 0.0
    ensures (dz > 0.0 && num < 0.0) || (dz < 0.0 && num > 0.0) ==> (1.0 / dz) * num < 0.0
    ensures (dz > 0.0 && num > 0.0) || (dz < 0.0 && num < 0.0) ==> (1.0 / dz) * num > 0.0
  {
    var q := 1.0 / dz;
    assert q * dz == 1.0;
    if dz > 0.0 {
      assert q > 0.0;
    } else {
      assert q < 0.0;
    }
  }

  /** A vertex straight ahead of the camera horizontally appears in the
      middle column, and one straight ahead vertically in the middle row. */
  lemma ProjectCentered(p: Vector3, camera: Vector3, screenWidth: real, screenHeight: real)
    requires p.z != camera.z && screenWidth > 0.0 && screenHeight > 0.0
    ensures p.x == camera.x ==> ProjectPoint(p, camera, screenWidth, screenHeight).x == Finite(screenWidth / 2.0)
    ensures p.y == camera.y ==> ProjectPoint(p, camera, screenWidth, screenHeight).y == Finite(screenHeight / 2.0)
  {
    var d := Sub(p, camera);
    ProjectSide(d.x, d.z, screenWidth);
    ProjectSide(d.y, d.z, screenHeight);
  }

  /** A vertex other than the camera itself projects either to a finite
      point or to one with an infinite coordinate; only the camera's own
      position, or an empty screen, gives not a number in both. */
  lemma ProjectKind(p: Vector3, camera: Vector3, screenWidth: real, screenHeight: real)
    requires p != camera && screenWidth != 0.0 && screenHeight != 0.0
    ensures var q := ProjectPoint(p, camera, screenWidth, screenHeight);
            (q.x.Finite? && q.y.Finite?) || q.x.Infinite? || q.y.Infinite?
  {
    var d := Sub(p, camera);
    assert d != Zero;
  }

  /** The cube the program starts with, seen from its starting camera on its
      400 by 400 window: the front face is a square a third of the window
      wide, the back face one a fifth of it, both centred. */
  lemma ReferenceProjection()
    ensures ProjectAll(ReferenceCube(), Vector3(2.5, 2.5, -2.5), 400.0, 400.0)
            == [Vector2(Finite(400.0 / 3.0), Finite(400.0 / 3.0)), Vector2(Finite(800.0 / 3.0), Finite(400.0 / 3.0)),
                Vector2(Finite(800.0 / 3.0), Finite(800.0 / 3.0)), Vector2(Finite(400.0 / 3.0), Finite(800.0 / 3.0)),
                Vector2(Finite(160.0), Finite(160.0)), Vector2(Finite(240.0), Finite(160.0)),
                Vector2(Finite(240.0), Finite(240.0)), Vector2(Finite(160.0), Finite(240.0))]
  {
    assert ProjectCoord(-2.5, 0.0, 7.5, 400.0) == Finite(400.0 / 3.0);
    assert ProjectCoord(2.5, 0.0, 7.5, 400.0) == Finite(800.0 / 3.0);
    assert ProjectCoord(-2.5, 0.0, 12.5, 400.0) == Finite(160.0);
    assert ProjectCoord(2.5, 0.0, 12.5, 400.0) == Finite(240.0);
  }
}
