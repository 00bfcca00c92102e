/** The program's event loop: the starting scene, and how each key changes
    the cube, the camera and the translate/rotate mode. A key first
    updates the scene, then the picture is projected and drawn again. */
module Controls {
  import opened Numeric
  import opened Vectors
  import opened Geometry
  import opened Raster
  import opened Projection
  import opened Render

  /** The keys the program reacts to, and every other key. */
  datatype Key = Left | Right | Up | Down | KeypadPlus | KeypadMinus | Space | LetterR | Other

  /** The window is 400 by 400 pixels. */
  const ScreenWidth := 400.0
  const ScreenHeight := 400.0

  /** Where `main` puts the camera: in front of the cube, level with its centre. */
  const StartCamera := Vector3(2.5, 2.5, -2.5)

  /** What a key acts on: the vertices, the camera and the mode. */
  datatype State = State(points: seq<Vector3>, camLoc: Vector3, translate: bool)

  /** The scene before the first key. */
  function Start(): State
  {
    State(ReferenceCube(), StartCamera, true)
  }

  /** `std::min(m, d)`: `d` when it is below `m`, otherwise `m`. The
      running minimum starts at `INFINITY`. */
  function MinWith(m: Coord, d: real): (r: Coord)
    ensures m.Infinite? ==> r == Finite(d)
    ensures m.Finite? ==> r.Finite? && r.value <= m.value && r.value <= d && (r.value == m.value || r.value == d)
  {
    if m.Infinite? || (m.Finite? && d < m.value) then Finite(d) else m
  }

  /** The distance from the camera to `p`, as `hypot(hypot(dx, dy), dz)`. */
  function Distance(camLoc: Vector3, p: Vector3, norm: Vector3 -> real): real
  {
    norm(Sub(camLoc, p))
  }

  /** The smallest distance from the camera to a vertex, folded left to
      right from `INFINITY`. */
  function Nearest(ps: seq<Vector3>, camLoc: Vector3, norm: Vector3 -> real): (r: Coord)
    ensures r.Infinite? <==> |ps| == 0
    ensures !r.NotANumber?
  {
    if |ps| == 0 then Infinite
    else MinWith(Nearest(ps[..|ps| - 1], camLoc, norm), Distance(camLoc, ps[|ps| - 1], norm))
  }

  /** For at least one vertex, the fold yields the least of the distances:
      it is at most each of them and equal to one of them. */
  lemma {:induction false} NearestIsMinimum(ps: seq<Vector3>, camLoc: Vector3, norm: Vector3 -> real)
    requires |ps| > 0
    ensures Nearest(ps, camLoc, norm).Finite?
    ensures forall i :: 0 <= i < |ps| ==> Nearest(ps, camLoc, norm).value <= Distance(camLoc, ps[i], norm)
    ensures exists i :: 0 <= i < |ps| && Nearest(ps, camLoc, norm).value == Distance(camLoc, ps[i], norm)
  {
    var n := |ps| - 1;
    var init := ps[..n];
    if n > 0 {
      NearestIsMinimum(init, camLoc, norm);
      var j :| 0 <= j < n && Nearest(init, camLoc, norm).value == Distance(camLoc, init[j], norm);
      assert init[j] == ps[j];
      var m := Nearest(ps, camLoc, norm);
      if m.value != Distance(camLoc, ps[n], norm) {
        assert m.value == Distance(camLoc, ps[j], norm);
      }
      forall i | 0 <= i < |ps|
        ensures m.value <= Distance(camLoc, ps[i], norm)
      {
        if i < n {
          assert init[i] == ps[i];
        }
      }
    } else {
      assert Nearest(ps, camLoc, norm) == Finite(Distance(camLoc, ps[0], norm));
    }
  }

  /** The zoom-out guard of the keypad minus key: the nearest vertex is
      more than half a unit from the camera. */
  predicate FarEnough(m: Coord)
  {
    m.Infinite? || (m.Finite? && m.value > 0.5)
  }

  /** With the true Euclidean magnitude, the guard holds exactly when every
      vertex is more than half a unit from the camera, that is, when every
      squared distance exceeds a quarter. */
  lemma FarEnoughMeans(ps: seq<Vector3>, camLoc: Vector3, norm: Vector3 -> real)
    requires |ps| > 0 && IsEuclideanNorm(norm)
    ensures FarEnough(Nearest(ps, camLoc, norm)) <==> forall i :: 0 <= i < |ps| ==> NormSq(Sub(camLoc, ps[i])) > 0.25
  {
    NearestIsMinimum(ps, camLoc, norm);
    var m := Nearest(ps, camLoc, norm);
    forall i | 0 <= i < |ps|
      ensures Distance(camLoc, ps[i], norm) > 0.5 <==> NormSq(Sub(camLoc, ps[i])) > 0.25
    {
      NormCompare(norm, Sub(camLoc, ps[i]), 0.5);
    }
    if FarEnough(m) {
      forall i | 0 <= i < |ps|
        ensures NormSq(Sub(camLoc, ps[i])) > 0.25
      {
      }
    } else {
      var j :| 0 <= j < |ps| && m.value == Distance(camLoc, ps[j], norm);
      assert !(NormSq(Sub(camLoc, ps[j])) > 0.25);
    }
  }

  /** The translation each arrow or keypad key applies in translate mode. */
  function Shift(key: Key): (d: Vector3)
  {
    match key
    case Left => Vector3(-0.25, 0.0, 0.0)
    case Right => Vector3(0.25, 0.0, 0.0)
    case Up => Vector3(0.0, -0.25, 0.0)
    case Down => Vector3(0.0, 0.25, 0.0)
    case KeypadPlus => Vector3(0.0, 0.0, 0.25)
    case KeypadMinus => Vector3(0.0, 0.0, -0.25)
    case _ => Zero
  }

  /** The keys that move or turn the cube. */
  predicate Moves(key: Key)
  {
    key.Left? || key.Right? || key.Up? || key.Down? || key.KeypadPlus? || key.KeypadMinus?
  }

  /** The axis each key turns about in rotate mode: left and right about
      the vertical axis, up and down about the horizontal one, the keypad
      keys about the depth axis. */
  function TurnAxis(key: Key): Axis
  {
    match key
    case Left => Y
    case Right => Y
    case Up => X
    case Down => X
    case _ => Z
  }

  /** Whether the key turns by +2.5 degrees (right, up, keypad plus) rather
      than by -2.5 degrees. */
  predicate TurnsForward(key: Key)
  {
    key.Right? || key.Up? || key.KeypadPlus?
  }

  /** The key can be handled: in rotate mode the axis it turns about has
      two distinct face centres, so that its unit vector exists. */
  predicate Handles(st: State, key: Key, norm: Vector3 -> real)
  {
    |st.points| == 8 && (st.translate || !Moves(key) || Turnable(st.points, TurnAxis(key), norm))
  }

  /** Where the space key puts the camera: at the cube's centre, moved back
      in depth by the depth between vertices 0 and 4 plus five. */
  function Recentred(ps: seq<Vector3>): (cam: Vector3)
    requires |ps| == 8
    ensures cam.x == Center(ps).x && cam.y == Center(ps).y
    ensures cam.z <= Center(ps).z - 5.0
  {
    var center := Center(ps);
    Vector3(center.x, center.y, center.z - (Abs(ps[0].z - ps[4].z) + 5.0))
  }

  /** One key press. `c` and `s` are the cosine and sine of 2.5 degrees;
      a turn by -2.5 degrees uses `c` and `-s`. */
  function Transition(st: State, key: Key, c: real, s: real, norm: Vector3 -> real): (r: State)
    requires Handles(st, key, norm)
    ensures |r.points| == 8
    ensures !key.LetterR? ==> r.translate == st.translate
    ensures !key.Space? ==> r.camLoc == st.camLoc
  {
    if key.LetterR? then st.(translate := !st.translate)
    else if key.Space? then st.(camLoc := Recentred(st.points))
    else if !Moves(key) then st
    else if st.translate then
      if key.KeypadMinus? && !FarEnough(Nearest(st.points, st.camLoc, norm)) then st
      else st.(points := TranslateAll(st.points, Shift(key)))
    else
      st.(points := RotationOf(st.points, TurnAxis(key), c, if TurnsForward(key) then s else -s, norm))
  }

  /** Pressing r twice returns to the mode one started in, with nothing else changed. */
  lemma ToggleTwice(st: State, c: real, s: real, norm: Vector3 -> real)
    requires |st.points| == 8
    ensures Transition(Transition(st, LetterR, c, s, norm), LetterR, c, s, norm) == st
  {
  }

  /** In translate mode a moving key shifts the cube's centre by its
      translation, unless it is keypad minus with a vertex too close to the
      camera, which leaves the scene as it was. */
  lemma TranslateMovesCenter(st: State, key: Key, c: real, s: real, norm: Vector3 -> real)
    requires |st.points| == 8 && st.translate && Moves(key)
    ensures var r := Transition(st, key, c, s, norm);
            if key.KeypadMinus? && !FarEnough(Nearest(st.points, st.camLoc, norm)) then r == st
            else Center(r.points) == Add(Center(st.points), Shift(key))
  {
    CenterTranslate(st.points, Shift(key));
  }

  /** The key that undoes `key` in translate mode. */
  predicate Opposite(key: Key, back: Key)
  {
    match key
    case Left => back.Right?
    case Right => back.Left?
    case Up => back.Down?
    case Down => back.Up?
    case KeypadPlus => back.KeypadMinus?
    case KeypadMinus => back.KeypadPlus?
    case _ => false
  }

  /** In translate mode a moving key that is let through translates every
      vertex by its shift. */
  lemma TranslateStep(st: State, key: Key, c: real, s: real, norm: Vector3 -> real)
    requires |st.points| == 8 && st.translate && Moves(key)
    requires key.KeypadMinus? ==> FarEnough(Nearest(st.points, st.camLoc, norm))
    ensures Transition(st, key, c, s, norm) == st.(points := TranslateAll(st.points, Shift(key)))
  {
  }

  /** In rotate mode a moving key turns every vertex about its axis, by
      +2.5 or -2.5 degrees. */
  lemma RotateStep(st: State, key: Key, c: real, s: real, norm: Vector3 -> real)
    requires |st.points| == 8 && !st.translate && Moves(key) && Turnable(st.points, TurnAxis(key), norm)
    ensures Transition(st, key, c, s, norm)
            == st.(points := RotationOf(st.points, TurnAxis(key), c, if TurnsForward(key) then s else -s, norm))
  {
  }

  /** In rotate mode, when the axis a key turns about runs along its
      coordinate (as on the starting cube), up and down keep every vertex's
      x, but left and right scale every height, and the keypad keys every
      depth, by `2 cos - 1`. */
  lemma TurnStretches(st: State, key: Key, h: real, c: real, s: real, norm: Vector3 -> real)
    requires IsEuclideanNorm(norm) && |st.points| == 8 && !st.translate && Moves(key) && h > 0.0
    requires AxisSpan(st.points, TurnAxis(key)) == Scale(Direction(TurnAxis(key)), h)
    ensures Handles(st, key, norm)
    ensures key.Up? || key.Down? ==> forall i :: 0 <= i < 8 ==>
              Transition(st, key, c, s, norm).points[i].x == st.points[i].x
    ensures key.Left? || key.Right? ==> forall i :: 0 <= i < 8 ==>
              Transition(st, key, c, s, norm).points[i].y == Stretched(st.points[i].y, c)
    ensures key.KeypadPlus? || key.KeypadMinus? ==> forall i :: 0 <= i < 8 ==>
              Transition(st, key, c, s, norm).points[i].z == Stretched(st.points[i].z, c)
  {
    var sin := if TurnsForward(key) then s else -s;
    TurnAsWritten(st.points, TurnAxis(key), h, c, sin, norm);
    RotateStep(st, key, c, s, norm);
  }

  /** In translate mode, a key followed by its opposite brings every vertex
      back: left then right, up then down, keypad plus then (when let
      through) keypad minus, and the other way round. */
  lemma TranslateUndo(st: State, key: Key, back: Key, c: real, s: real, norm: Vector3 -> real)
    requires |st.points| == 8 && st.translate
    requires Opposite(key, back)
    requires key.KeypadMinus? ==> FarEnough(Nearest(st.points, st.camLoc, norm))
    requires var mid := Transition(st, key, c, s, norm);
             back.KeypadMinus? ==> FarEnough(Nearest(mid.points, mid.camLoc, norm))
    ensures Transition(Transition(st, key, c, s, norm), back, c, s, norm) == st
  {
    var mid := st.(points := TranslateAll(st.points, Shift(key)));
    TranslateStep(st, key, c, s, norm);
    assert Transition(st, key, c, s, norm) == mid;
    TranslateStep(mid, back, c, s, norm);
    OppositeShifts(key, back);
    TranslateInverse(st.points, Shift(key), Shift(back));
  }

  lemma OppositeShifts(key: Key, back: Key)
    requires Opposite(key, back)
    ensures Add(Shift(key), Shift(back)) == Zero
  {
  }

  /** After the space key, the cube's centre lies straight ahead of the
      camera, more than five units deep, and so appears in the middle of
      the window. */
  lemma SpaceCentres(st: State, c: real, s: real, norm: Vector3 -> real)
    requires |st.points| == 8
    ensures var r := Transition(st, Space, c, s, norm);
            var d := Sub(Center(r.points), r.camLoc);
            d.x == 0.0 && d.y == 0.0 && d.z >= 5.0
            && ProjectPoint(Center(r.points), r.camLoc, ScreenWidth, ScreenHeight)
               == Vector2(Finite(ScreenWidth / 2.0), Finite(ScreenHeight / 2.0))
  {
    var r := Transition(st, Space, c, s, norm);
    ProjectCentered(Center(r.points), r.camLoc, ScreenWidth, ScreenHeight);
  }

  /** With a Euclidean magnitude, every key can be handled at the start,
      even once the r key has switched to turning. */
  lemma StartHandles(key: Key, norm: Vector3 -> real)
    requires IsEuclideanNorm(norm)
    ensures Handles(Start().(translate := false), key, norm)
  {
    StartTurnable(norm);
    TurnableHandles(ReferenceCube(), StartCamera, false, key, norm);
  }

  /** A cube that can be turned about each of its three axes can take any key. */
  lemma TurnableHandles(ps: seq<Vector3>, camLoc: Vector3, translate: bool, key: Key, norm: Vector3 -> real)
    requires Turnable(ps, X, norm) && Turnable(ps, Y, norm) && Turnable(ps, Z, norm)
    ensures Handles(State(ps, camLoc, translate), key, norm)
  {
  }

  /** The starting cube can be turned about each of its axes. */
  lemma StartTurnable(norm: Vector3 -> real)
    requires IsEuclideanNorm(norm)
    ensures Turnable(ReferenceCube(), X, norm)
    ensures Turnable(ReferenceCube(), Y, norm)
    ensures Turnable(ReferenceCube(), Z, norm)
  {
    StartAxes();
    SideNorm(norm, Vector3(5.0, 0.0, 0.0));
    SideNorm(norm, Vector3(0.0, 5.0, 0.0));
    SideNorm(norm, Vector3(0.0, 0.0, 5.0));
  }

  /** The starting cube's axes run five units along x, y and z. */
  lemma StartAxes()
    ensures AxisSpan(ReferenceCube(), X) == Vector3(5.0, 0.0, 0.0)
    ensures AxisSpan(ReferenceCube(), Y) == Vector3(0.0, 5.0, 0.0)
    ensures AxisSpan(ReferenceCube(), Z) == Vector3(0.0, 0.0, 5.0)
  {
    BoxAxes(Vector3(0.0, 0.0, 5.0), Vector3(5.0, 5.0, 10.0));
  }

  /** A vector five units along an axis has a non-zero magnitude. */
  lemma SideNorm(norm: Vector3 -> real, side: Vector3)
    requires IsEuclideanNorm(norm)
    requires side in {Vector3(5.0, 0.0, 0.0), Vector3(0.0, 5.0, 0.0), Vector3(0.0, 0.0, 5.0)}
    ensures norm(side) != 0.0
  {
    assert NormSq(side) == 25.0;
    RootNonZero(norm(side), NormSq(side));
  }

  /** The first picture: no vertex sits at the camera, so all twelve lines
      of the projected cube can be drawn. */
  lemma StartDrawable()
    ensures Drawable(ProjectAll(ReferenceCube(), StartCamera, ScreenWidth, ScreenHeight))
  {
    var ps := ReferenceCube();
    forall i | 0 <= i < 8
      ensures ps[i] != StartCamera
    {
      assert ps[i].z == 5.0 || ps[i].z == 10.0;
    }
    ProjectedDrawable(ps, StartCamera, ScreenWidth, ScreenHeight);
  }

  /** `n` presses of one key in translate mode. */
  function Presses(st: State, key: Key, n: nat, c: real, s: real, norm: Vector3 -> real): (r: State)
    requires |st.points| == 8 && st.translate && !key.LetterR?
    ensures |r.points| == 8 && r.translate
    decreases n
  {
    if n == 0 then st else Presses(Transition(st, key, c, s, norm), key, n - 1, c, s, norm)
  }

  /** In translate mode, `n` presses of an arrow key or keypad plus, which
      no guard holds back, translate the cube by `n` times the key's shift
      and leave the camera where it was. */
  lemma {:induction false} SlidePresses(st: State, key: Key, n: nat, c: real, s: real, norm: Vector3 -> real)
    requires |st.points| == 8 && st.translate && Moves(key) && !key.KeypadMinus?
    ensures Presses(st, key, n, c, s, norm) == st.(points := TranslateAll(st.points, Times(Shift(key), n)))
    decreases n
  {
    if n == 0 {
      TranslateZero(st.points);
    } else {
      var next := st.(points := TranslateAll(st.points, Shift(key)));
      TranslateStep(st, key, c, s, norm);
      SlidePresses(next, key, n - 1, c, s, norm);
      TranslateCompose(st.points, Shift(key), Times(Shift(key), n - 1));
      assert Add(Shift(key), Times(Shift(key), n - 1)) == Times(Shift(key), n);
    }
  }

  /** A cube of side 5 whose lower corner is at (0, 0, z). */
  function OffAxisCube(z: real): (r: seq<Vector3>)
    ensures |r| == 8
  {
    Box(Vector3(0.0, 0.0, z), Vector3(5.0, 5.0, z + 5.0))
  }

  /** A cube of side 5 with its lower corner on the camera's line of sight
      through (0, 0) is more than half a unit from the starting camera,
      whatever its depth: every vertex is 2.5 units off in x and in y. */
  lemma OffAxisFarEnough(z: real, norm: Vector3 -> real)
    requires IsEuclideanNorm(norm)
    ensures FarEnough(Nearest(OffAxisCube(z), StartCamera, norm))
  {
    var ps := OffAxisCube(z);
    forall i | 0 <= i < 8
      ensures NormSq(Sub(StartCamera, ps[i])) > 0.25
    {
      var d := Sub(StartCamera, ps[i]);
      assert d.x * d.x == 6.25 && d.y * d.y == 6.25;
      if d.z >= 0.0 {
        MulNonNegative(d.z, d.z);
      } else {
        MulNonNegative(-d.z, -d.z);
      }
    }
    FarEnoughMeans(ps, StartCamera, norm);
  }

  /** One press of keypad minus passes the guard and brings such a cube a
      quarter unit closer. */
  lemma ApproachStep(z: real, c: real, s: real, norm: Vector3 -> real)
    requires IsEuclideanNorm(norm)
    ensures Transition(State(OffAxisCube(z), StartCamera, true), KeypadMinus, c, s, norm)
            == State(OffAxisCube(z - 0.25), StartCamera, true)
  {
    var lo, hi := Vector3(0.0, 0.0, z), Vector3(5.0, 5.0, z + 5.0);
    OffAxisFarEnough(z, norm);
    TranslateStep(State(OffAxisCube(z), StartCamera, true), KeypadMinus, c, s, norm);
    BoxTranslate(lo, hi, Shift(KeypadMinus));
  }

  /** So every press of keypad minus passes the guard: `n` presses bring
      the cube `n` quarter units closer. */
  lemma {:induction false} ApproachPresses(z: real, n: nat, c: real, s: real, norm: Vector3 -> real)
    requires IsEuclideanNorm(norm)
    ensures Presses(State(OffAxisCube(z), StartCamera, true), KeypadMinus, n, c, s, norm)
            == State(OffAxisCube(z - 0.25 * (n as real)), StartCamera, true)
    decreases n
  {
    if n > 0 {
      ApproachStep(z, c, s, norm);
      ApproachPresses(z - 0.25, n - 1, c, s, norm);
      assert z - 0.25 - 0.25 * ((n - 1) as real) == z - 0.25 * (n as real);
    }
  }

  /** `n` presses of an arrow key or keypad plus move an axis-aligned box
      to the box between its corners shifted `n` times. */
  lemma BoxSlides(lo: Vector3, hi: Vector3, camLoc: Vector3, key: Key, n: nat, c: real, s: real, norm: Vector3 -> real)
    requires Moves(key) && !key.KeypadMinus?
    ensures var d := Scale(Shift(key), n as real);
            Presses(State(Box(lo, hi), camLoc, true), key, n, c, s, norm) == State(Box(Add(lo, d), Add(hi, d)), camLoc, true)
  {
    SlidePresses(State(Box(lo, hi), camLoc, true), key, n, c, s, norm);
    TimesScale(Shift(key), n);
    BoxTranslate(lo, hi, Scale(Shift(key), n as real));
  }

  /** Thirty presses of keypad minus from the start bring the cube's front
      face level with the camera. */
  lemma ReachCameraDepth(c: real, s: real, norm: Vector3 -> real)
    requires IsEuclideanNorm(norm)
    ensures Presses(Start(), KeypadMinus, 30, c, s, norm)
            == State(Box(Vector3(0.0, 0.0, -2.5), Vector3(5.0, 5.0, 2.5)), StartCamera, true)
  {
    assert Start() == State(OffAxisCube(5.0), StartCamera, true);
    ApproachPresses(5.0, 30, c, s, norm);
  }

  /** Then ten presses of right and ten of down bring vertex 0 onto the camera. */
  lemma ReachCameraSide(c: real, s: real, norm: Vector3 -> real)
    ensures var front := State(Box(Vector3(0.0, 0.0, -2.5), Vector3(5.0, 5.0, 2.5)), StartCamera, true);
            Presses(Presses(front, Right, 10, c, s, norm), Down, 10, c, s, norm)
            == State(Box(StartCamera, Vector3(7.5, 7.5, 2.5)), StartCamera, true)
  {
    BoxSlides(Vector3(0.0, 0.0, -2.5), Vector3(5.0, 5.0, 2.5), StartCamera, Right, 10, c, s, norm);
    assert Scale(Shift(Right), 10 as real) == Vector3(2.5, 0.0, 0.0);
    BoxSlides(Vector3(2.5, 0.0, -2.5), Vector3(7.5, 5.0, 2.5), StartCamera, Down, 10, c, s, norm);
    assert Scale(Shift(Down), 10 as real) == Vector3(0.0, 2.5, 0.0);
  }

  /** Keys alone can bring a vertex onto the camera. From the start, thirty
      presses of keypad minus (each let through by the guard), then ten of
      right and ten of down put vertex 0 at the camera. Its projection is
      not a number in both coordinates, which passes the guard of `wuLine`,
      so the next picture is not drawable. */
  lemma CameraReachable(c: real, s: real, norm: Vector3 -> real)
    requires IsEuclideanNorm(norm)
    ensures var st := Presses(Presses(Presses(Start(), KeypadMinus, 30, c, s, norm), Right, 10, c, s, norm), Down, 10, c, s, norm);
            var cube := ProjectAll(st.points, st.camLoc, ScreenWidth, ScreenHeight);
            st.points[0] == st.camLoc && cube[0] == Vector2(NotANumber, NotANumber) && !Drawable(cube)
  {
    ReachCameraDepth(c, s, norm);
    ReachCameraSide(c, s, norm);
    VertexAtCamera(Box(StartCamera, Vector3(7.5, 7.5, 2.5)), StartCamera, ScreenWidth, ScreenHeight);
  }

  /** The scene of `main`: the cube, the camera and the mode flag, which the
      key handler updates in place. */
  class Scene {
    const cube: Cube3D
    var camLoc: Vector3
    var translate: bool

    /** The key-independent view of the scene. */
    function View(): State
      reads this, cube.point
    {
      State(cube.point[..], camLoc, translate)
    }

    /** The set-up in `main`: the starting cube, the camera in front of it
        and translate mode. */
    constructor ()
      ensures cube.point.Length == 8 && View() == Start()
      ensures fresh(cube) && fresh(cube.point)
    {
      cube := new Cube3D(ReferenceCube());
      camLoc := StartCamera;
      translate := true;
    }

    /** The zoom-out guard's loop: the smallest `hypot` distance from the
        camera to a vertex, starting from `INFINITY`. */
    method NearestDistance(norm: Vector3 -> real) returns (minZDistance: Coord)
      requires cube.point.Length == 8
      ensures minZDistance == Nearest(cube.point[..], camLoc, norm)
    {
      minZDistance := Infinite;
      for i := 0 to 8
        invariant minZDistance == Nearest(cube.point[..i], camLoc, norm)
      {
        var p := cube.point[i];
        assert cube.point[..i + 1][..i] == cube.point[..i];
        minZDistance := MinWith(minZDistance, norm(Vector3(camLoc.x - p.x, camLoc.y - p.y, camLoc.z - p.z)));
      }
      assert cube.point[..8] == cube.point[..];
    }

    /** The key handler of the event loop. */
    method HandleKey(key: Key, c: real, s: real, norm: Vector3 -> real)
      requires cube.point.Length == 8 && Handles(View(), key, norm)
      modifies this, cube.point
      ensures View() == Transition(old(View()), key, c, s, norm)
    {
      ghost var st := View();
      match key {
        case Left =>
          if translate { cube.Translate(Vector3(-0.25, 0.0, 0.0)); TranslateStep(st, key, c, s, norm); }
          else { cube.RotateAbout(Y, c, -s, norm); RotateStep(st, key, c, s, norm); }
        case Right =>
          if translate { cube.Translate(Vector3(0.25, 0.0, 0.0)); TranslateStep(st, key, c, s, norm); }
          else { cube.RotateAbout(Y, c, s, norm); RotateStep(st, key, c, s, norm); }
        case Up =>
          if translate { cube.Translate(Vector3(0.0, -0.25, 0.0)); TranslateStep(st, key, c, s, norm); }
          else { cube.RotateAbout(X, c, s, norm); RotateStep(st, key, c, s, norm); }
        case Down =>
          if translate { cube.Translate(Vector3(0.0, 0.25, 0.0)); TranslateStep(st, key, c, s, norm); }
          else { cube.RotateAbout(X, c, -s, norm); RotateStep(st, key, c, s, norm); }
        case KeypadPlus =>
          if translate { cube.Translate(Vector3(0.0, 0.0, 0.25)); TranslateStep(st, key, c, s, norm); }
          else { cube.RotateAbout(Z, c, s, norm); RotateStep(st, key, c, s, norm); }
        case KeypadMinus =>
          if translate {
            var minZDistance := NearestDistance(norm);
            if FarEnough(minZDistance) {
              cube.Translate(Vector3(0.0, 0.0, -0.25));
              TranslateStep(st, key, c, s, norm);
            }
          } else {
            cube.RotateAbout(Z, c, -s, norm);
            RotateStep(st, key, c, s, norm);
          }
        case Space =>
          var center := cube.GetCenter();
          camLoc := Vector3(center.x, center.y, center.z - (Abs(cube.point[0].z - cube.point[4].z) + 5.0));
        case LetterR =>
          translate := !translate;
        case Other =>
      }
    }

    /** The picture drawn after each key: the projection of the current
        cube from the camera on the 400 by 400 window, drawn as twelve lines. */
    method Frame() returns (plots: seq<Plot>)
      requires cube.point.Length == 8
      requires Drawable(ProjectAll(cube.point[..], camLoc, ScreenWidth, ScreenHeight))
      ensures plots == DrawSpec(ProjectAll(cube.point[..], camLoc, ScreenWidth, ScreenHeight))
    {
      var cube2D := PerspectiveProjection(cube, camLoc, ScreenWidth, ScreenHeight);
      plots := DrawCube2D(cube2D);
    }
  }
}
