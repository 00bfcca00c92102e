/** `drawCube2D`: the twelve edges of the projected cube, each drawn with
    `wuLine` in its colour. The four side edges joining the front face to
    the back face are yellow (bottom) and blue (top), the front face red,
    the back face green. */
module Render {
  import opened Vectors
  import opened Geometry
  import opened Raster
  import opened Projection

  const Yellow := Color(0xFF, 0xFF, 0x00)
  const Blue := Color(0x00, 0x9F, 0xFF)
  const Red := Color(0xFF, 0x00, 0x00)
  const Green := Color(0x00, 0xFF, 0x00)

  /** A line from vertex `from` to vertex `to` in `color`. */
  datatype Edge = Edge(from: nat, to: nat, color: Color)

  /** The `k`-th line `drawCube2D` draws, in the order of its four loops:
      0-1 join vertices 0 and 1 to the back face, 2-3 vertices 2 and 3,
      4-7 go round the front face and 8-11 round the back face, each ring
      closing on its first vertex. */
  function EdgeAt(k: nat): (e: Edge)
    requires k < 12
    ensures e.from < 8 && e.to < 8
  {
    if k < 2 then Edge(k, k + 4, Yellow)
    else if k < 4 then Edge(k, k + 4, Blue)
    else if k < 8 then Edge(k - 4, if k - 3 == 4 then 0 else k - 3, Red)
    else Edge(k - 4, if k - 3 == 8 then 4 else k - 3, Green)
  }

  /** The line from one projected vertex to another is one `wuLine` can draw. */
  predicate EdgeDefined(cube: seq<Vector2>, e: Edge)
    requires |cube| == 8 && e.from < 8 && e.to < 8
  {
    Defined(cube[e.from].x, cube[e.from].y, cube[e.to].x, cube[e.to].y)
  }

  /** Every edge of the projected cube is drawable. */
  predicate Drawable(cube: seq<Vector2>)
  {
    |cube| == 8 && forall k :: 0 <= k < 12 ==> EdgeDefined(cube, EdgeAt(k))
  }

  /** The plots of one edge. */
  function EdgePlots(cube: seq<Vector2>, e: Edge): seq<Plot>
    requires |cube| == 8 && e.from < 8 && e.to < 8 && EdgeDefined(cube, e)
  {
    WuSpec(cube[e.from].x, cube[e.from].y, cube[e.to].x, cube[e.to].y, e.color)
  }

  /** The plots of the first `n` edges, in drawing order. */
  function Lines(cube: seq<Vector2>, n: nat): seq<Plot>
    requires Drawable(cube) && n <= 12
  {
    if n == 0 then [] else Lines(cube, n - 1) + EdgePlots(cube, EdgeAt(n - 1))
  }

  /** What `drawCube2D` hands to `plot` between clearing and presenting. */
  function DrawSpec(cube: seq<Vector2>): seq<Plot>
    requires Drawable(cube)
  {
    Lines(cube, 12)
  }

  /** A vertex at the camera projects to not a number in both coordinates.
      With vertex 4 at another depth, the yellow edge from vertex 0 to
      vertex 4 passes the infinity guard of `wuLine` with a NaN end, so the
      projection is not drawable. */
  lemma VertexAtCamera(ps: seq<Vector3>, camera: Vector3, screenWidth: real, screenHeight: real)
    requires |ps| == 8 && ps[0] == camera && ps[4].z != camera.z
    ensures ProjectAll(ps, camera, screenWidth, screenHeight)[0] == Vector2(NotANumber, NotANumber)
    ensures !Drawable(ProjectAll(ps, camera, screenWidth, screenHeight))
  {
    var cube := ProjectAll(ps, camera, screenWidth, screenHeight);
    assert Sub(ps[0], camera) == Zero;
    assert cube[0] == ProjectPoint(ps[0], camera, screenWidth, screenHeight);
    assert cube[4] == ProjectPoint(ps[4], camera, screenWidth, screenHeight);
    assert cube[4].x.Finite? && cube[4].y.Finite?;
    assert !EdgeDefined(cube, EdgeAt(0));
  }

  /** The plots of the first `n` edges with the guard `wuLine` evidently
      intends: an edge with an end that did not project to a finite point
      draws nothing. On a drawable projection these are the plots of
      `Lines`. */
  function GuardedLines(cube: seq<Vector2>, n: nat): (r: seq<Plot>)
    requires |cube| == 8 && n <= 12
    ensures Drawable(cube) ==> r == Lines(cube, n)
  {
    if n == 0 then []
    else
      var e := EdgeAt(n - 1);
      GuardedLines(cube, n - 1) + GuardedWuSpec(cube[e.from].x, cube[e.from].y, cube[e.to].x, cube[e.to].y, e.color)
  }

  /** The picture with the intended guard: defined on every projection, and
      the picture of `drawCube2D` wherever that one is defined. */
  function GuardedDrawSpec(cube: seq<Vector2>): (r: seq<Plot>)
    requires |cube| == 8
    ensures Drawable(cube) ==> r == DrawSpec(cube)
  {
    GuardedLines(cube, 12)
  }

  /** `drawCube2D`: its four loops, each calling `wuLine` on one pair of
      projected vertices. */
  method DrawCube2D(cube: seq<Vector2>) returns (plots: seq<Plot>)
    requires Drawable(cube)
    ensures plots == DrawSpec(cube)
  {
    plots := [];
    var i, j := 0, 4;
    while i < 2 && j < 6
      invariant 0 <= i <= 2 && j == i + 4
      invariant plots == Lines(cube, i)
    {
      assert EdgeAt(i) == Edge(i, j, Yellow) && EdgeDefined(cube, EdgeAt(i));
      var line := WuLine(cube[i].x, cube[i].y, cube[j].x, cube[j].y, Yellow);
      plots := plots + line;
      i, j := i + 1, j + 1;
    }
    i, j := 2, 6;
    while i < 4 && j < 8
      invariant 2 <= i <= 4 && j == i + 4
      invariant plots == Lines(cube, i)
    {
      assert EdgeAt(i) == Edge(i, j, Blue) && EdgeDefined(cube, EdgeAt(i));
      var line := WuLine(cube[i].x, cube[i].y, cube[j].x, cube[j].y, Blue);
      plots := plots + line;
      i, j := i + 1, j + 1;
    }
    for i := 0 to 4
      invariant plots == Lines(cube, 4 + i)
    {
      var next := if i + 1 == 4 then 0 else i + 1;
      assert EdgeAt(4 + i) == Edge(i, next, Red) && EdgeDefined(cube, EdgeAt(4 + i));
      var line := WuLine(cube[i].x, cube[i].y, cube[next].x, cube[next].y, Red);
      plots := plots + line;
    }
    for i := 4 to 8
      invariant plots == Lines(cube, 4 + i)
    {
      var next := if i + 1 == 8 then 4 else i + 1;
      assert EdgeAt(4 + i) == Edge(i, next, Green) && EdgeDefined(cube, EdgeAt(4 + i));
      var line := WuLine(cube[i].x, cube[i].y, cube[next].x, cube[next].y, Green);
      plots := plots + line;
    }
  }

  /** A projected cube none of whose vertices sits at the camera can be
      drawn: every edge either has an infinite end, and `wuLine` skips it,
      or has two finite ends. */
  lemma ProjectedDrawable(ps: seq<Vector3>, camera: Vector3, screenWidth: real, screenHeight: real)
    requires |ps| == 8 && screenWidth != 0.0 && screenHeight != 0.0
    requires forall i :: 0 <= i < 8 ==> ps[i] != camera
    ensures Drawable(ProjectAll(ps, camera, screenWidth, screenHeight))
  {
    var cube := ProjectAll(ps, camera, screenWidth, screenHeight);
    forall k | 0 <= k < 12
      ensures EdgeDefined(cube, EdgeAt(k))
    {
      var e := EdgeAt(k);
      ProjectKind(ps[e.from], camera, screenWidth, screenHeight);
      ProjectKind(ps[e.to], camera, screenWidth, screenHeight);
    }
  }

  /** The plots of the first `n` edges are in the colours of those edges. */
  lemma {:induction false} LinesColors(cube: seq<Vector2>, n: nat)
    requires Drawable(cube) && n <= 12
    ensures forall p :: p in Lines(cube, n) ==> exists k :: 0 <= k < n && p.color == EdgeAt(k).color
  {
    if n > 0 {
      LinesColors(cube, n - 1);
      var e := EdgeAt(n - 1);
      LineColor(cube[e.from].x, cube[e.from].y, cube[e.to].x, cube[e.to].y, e.color);
    }
  }

  /** Only the four edge colours reach the screen. */
  lemma DrawColors(cube: seq<Vector2>)
    requires Drawable(cube)
    ensures forall p :: p in DrawSpec(cube) ==> p.color in {Yellow, Blue, Red, Green}
  {
    LinesColors(cube, 12);
  }

  /** Whether edge `e` joins vertices `i` and `j`, in either direction. */
  predicate Joins(e: Edge, i: nat, j: nat)
  {
    (e.from == i && e.to == j) || (e.from == j && e.to == i)
  }

  /** How many of the first `n` edges touch vertex `v`. */
  function Degree(v: nat, n: nat): nat
    requires n <= 12
  {
    if n == 0 then 0
    else Degree(v, n - 1) + (if EdgeAt(n - 1).from == v || EdgeAt(n - 1).to == v then 1 else 0)
  }

  /** Every vertex is drawn into exactly three lines, as on a cube. */
  lemma DegreeThree(v: nat)
    requires v < 8
    ensures Degree(v, 12) == 3
  {
    if v == 0 { assert Degree(0, 12) == 3; }
    else if v == 1 { assert Degree(1, 12) == 3; }
    else if v == 2 { assert Degree(2, 12) == 3; }
    else if v == 3 { assert Degree(3, 12) == 3; }
    else if v == 4 { assert Degree(4, 12) == 3; }
    else if v == 5 { assert Degree(5, 12) == 3; }
    else if v == 6 { assert Degree(6, 12) == 3; }
    else { assert Degree(7, 12) == 3; }
  }

  /** In how many coordinates two points differ. */
  function DifferingCoords(p: Vector3, q: Vector3): nat
  {
    (if p.x != q.x then 1 else 0) + (if p.y != q.y then 1 else 0) + (if p.z != q.z then 1 else 0)
  }

  /** Each line joins two corners of the unit cube that differ in exactly
      one coordinate, that is, two corners joined by an edge of the cube. */
  lemma EdgesAreCubeEdges(k: nat)
    requires k < 12
    ensures var e := EdgeAt(k); DifferingCoords(UnitCube()[e.from], UnitCube()[e.to]) == 1
  {
  }

  /** Conversely, every edge of the cube is one of the lines drawn. */
  lemma CubeEdgesDrawn(i: nat, j: nat)
    requires i < 8 && j < 8 && DifferingCoords(UnitCube()[i], UnitCube()[j]) == 1
    ensures exists k :: 0 <= k < 12 && Joins(EdgeAt(k), i, j)
  {
    var c := UnitCube();
    assert c == [Vector3(0.0, 0.0, 0.0), Vector3(1.0, 0.0, 0.0), Vector3(1.0, 1.0, 0.0), Vector3(0.0, 1.0, 0.0),
                 Vector3(0.0, 0.0, 1.0), Vector3(1.0, 0.0, 1.0), Vector3(1.0, 1.0, 1.0), Vector3(0.0, 1.0, 1.0)];
    if i < 4 {
      if j < 4 {
        assert j == (i + 1) % 4 || i == (j + 1) % 4;
        var k := if j == (i + 1) % 4 then 4 + i else 4 + j;
        assert Joins(EdgeAt(k), i, j);
      } else {
        assert j == i + 4;
        assert Joins(EdgeAt(i), i, j);
      }
    } else {
      if j < 4 {
        assert i == j + 4;
        assert Joins(EdgeAt(j), i, j);
      } else {
        assert j == (i - 3) % 4 + 4 || i == (j - 3) % 4 + 4;
        var k := if j == (i - 3) % 4 + 4 then 4 + i else 4 + j;
        assert Joins(EdgeAt(k), i, j);
      }
    }
  }
}
