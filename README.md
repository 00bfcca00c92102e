# Wireframe cube renderer in Dafny

The program draws a cube of eight vertices as a wireframe under a pinhole
perspective projection, and lets the user move the cube (translate mode)
or turn it about one of its own axes (rotate mode) with the keyboard. This
project models its engine and proves properties of it:

- `Numeric`: the scalar helpers `mapDouble`, `round`, `fPart` and `rfPart`,
  and the conversion of a `double` to an `int` parameter, which truncates
  toward zero.
- `Vectors`: `Vector3` with its operators, `dot`, the cross product,
  `getMagnitude` and `getUnitVector`. It also has the 2D point `Vector2`,
  whose coordinates may be infinite or not a number after projection.
- `Raster`: Wu's antialiased line algorithm, `wuLine`.
  - `WuSpec` describes the sequence of `plot` calls a line makes.
  - The method `WuLine` computes that sequence the way the program does:
    the guard on infinite coordinates, the steep transposition and the
    endpoint swap, the two endpoints, and the column loop.
- `Geometry`: the class `Cube3D` over an array of eight vertices, with
  `getCenter`, `translate` and `rotateAbout` as methods that update the
  array in place. It also has the point-about-line rotation formula
  `rotate` and the face-centre axes.
- `Projection`: `perspectiveProjection` as a loop over the eight vertices.
- `Render`: the twelve coloured `wuLine` calls of `drawCube2D`.
- `Controls`: the starting scene of `main` and the key handler of its
  event loop.
  - `Transition` describes one key press.
  - The class `Scene` performs it in place.
  - `Frame` computes the picture drawn after it.

Each `double` is a `real`. The magnitude `hypot(hypot(x, y), z)` is a
function parameter `norm`. Lemmas that need its value require
`IsEuclideanNorm(norm)`: it is non-negative and its square is the squared
length. The cosine and sine of the 2.5 degree turn are parameters `c` and
`s`. A screen coordinate is a `Coord`: finite, infinite (a vertex in the
camera's depth plane), or not a number (infinity times zero).

## Model

| member | source | states |
|---|---|---|
| Numeric.MapDouble | main.cpp:13-16 | `mapDouble` sends `valMin` to `mappedMin` and `valMax` to `mappedMax`, for `valMax != valMin` |
| Numeric.MapDoubleMonotone | main.cpp:13-16 | with both ranges increasing, the map keeps strict order |
| Numeric.MapDoubleMidpoint | main.cpp:13-16 | the midpoint of the source range goes to the midpoint of the target range |
| Numeric.Round | main.cpp:18 | `round(x) = floor(x + 0.5)` is the integer within half a unit of `x`, halves rounded up |
| Numeric.FPart | main.cpp:19 | `fPart(x)` is in [0, 1) and `x - fPart(x)` is the integer `floor(x)` |
| Numeric.RfPart | main.cpp:20 | `rfPart(x)` is in (0, 1] and adds up with `fPart(x)` to exactly 1 |
| Numeric.TruncBounds | main.cpp:84-85 | converting a `double` row to `plot`'s `int` parameter drops the fractional part of the magnitude and keeps the sign |
| Numeric.TruncRows | main.cpp:97-98 | the rows `(int) y` and `(int) (y + 1)` of an interior column are consecutive for `y >= 0`, but coincide (both 0) for `-1 < y < 0` |
| Numeric.Trunc | main.cpp:84-85 | the conversion of a `double` to `plot`'s `int` parameter, toward zero; `TruncBounds` states that it drops the fractional part of the magnitude and keeps the sign, and `TruncRows` what that does to the two rows of a column |
| Numeric.Abs | main.cpp:32 | `fabs` is non-negative and is `x` or `-x` |
| Vectors.Add | main.cpp:160-163 | `operator+`, component by component; `Sub` states that `operator-` undoes it |
| Vectors.Sub | main.cpp:165-168 | `operator-` undoes `operator+`: `(lhs - rhs) + rhs == lhs` |
| Vectors.Scale | main.cpp:170-173 | `operator*` by a scalar: by 1 it changes nothing, by 0 it gives the zero vector; `Div` states that `operator/` by the same non-zero scalar undoes it |
| Vectors.Div | main.cpp:188-191 | `operator/` by a non-zero scalar undoes scaling by it |
| Vectors.Dot | main.cpp:183-186 | `dot(v, v)` is non-negative |
| Vectors.Cross | main.cpp:175-181 | the cross product is orthogonal to both operands |
| Vectors.NormCompare | main.cpp:144-147 | with a Euclidean `getMagnitude`, `|v| > b` holds exactly when `dot(v, v) > b * b`, for `b >= 0` |
| Vectors.UnitVector | main.cpp:149-152 | `getUnitVector` times the magnitude gives back the vector |
| Vectors.UnitVectorLength | main.cpp:149-152 | with a Euclidean magnitude, the unit vector has squared length 1 |
| Raster.Orient | main.cpp:32-44 | steep exactly when `|y1 - y0| > |x1 - x0|`; after the transposition and swap the endpoints run left to right with slope at most 1 in magnitude; they are the input endpoints, transposed when steep, in one order or the other |
| Raster.Gradient | main.cpp:46-49 | the gradient is in [-1, 1], is 1 for coincident endpoints, and otherwise leads from the first endpoint's row to the second's |
| Raster.CoverageBound | main.cpp:59-60 | an endpoint brightness, a share in [0, 1] of a non-negative gap, is between 0 and the gap |
| Raster.WuSpec | main.cpp:28-102 | no plots when a coordinate is infinite; otherwise four endpoint plots and two per interior column |
| Raster.WuLine | main.cpp:28-102 | the method, with its swaps, emits exactly the plots of `WuSpec` |
| Raster.GuardedWuSpec | main.cpp:28-30 | with the intended guard (Findings row main.cpp:30), a line with a coordinate that is not finite draws nothing, and wherever `wuLine` is defined it plots what `WuSpec` plots |
| Raster.PlotOriented | main.cpp:46-101 | the endpoint plots and the column loop on oriented endpoints emit exactly the plots of `Rasterise` |
| Raster.PlotInterior | main.cpp:82-100 | the column loop advancing `yIntersection` by the gradient emits exactly the plots of `Interior` |
| Raster.InteriorAt | main.cpp:95-100 | interior column `k` lies at `x + k`, at the row reached after `k` gradient steps |
| Raster.InteriorPlot | main.cpp:95-100 | interior plot `i` lies on column `x + i / 2`, its brightness is in [0, 1], and each column's two brightnesses add up to 1 |
| Raster.InteriorShares | main.cpp:95-100 | every interior column of a line gets a total brightness of exactly 1 |
| Raster.CoverageSplit | main.cpp:65-66 | an endpoint's two brightnesses add up to its gap |
| Raster.EndShares | main.cpp:51-75 | the first endpoint's gap is in (0, 1], the second's in [0, 1), and each endpoint's two plots share its gap |
| Raster.Columns | main.cpp:51-101 | the endpoint plots sit on the rounded end columns, and interior plot `i` on column `round(x0) + 1 + i / 2`, strictly between them |
| Raster.BrightnessInRange | main.cpp:28-102 | every brightness passed to `plot` is in [0, 1] |
| Raster.LineColor | main.cpp:28-102 | every plot carries the colour the line was given |
| Raster.InteriorColor | main.cpp:95-100 | every interior plot carries the line's colour |
| Raster.ShallowLineExample | main.cpp:28-102 | the line (0, 0) to (3, 1) plots eight pixels, the two interior columns split in thirds |
| Raster.TruncatedRowsExample | main.cpp:97-98 | on the line y = -0.5 from x = 0 to 2, the endpoints use rows -1 and 0, but both plots of the middle column land on row 0 |
| Geometry.TranslateAll | main.cpp:281-287 | every point moves by exactly `d` |
| Geometry.BoxTranslate | main.cpp:281-287 | translating an axis-aligned cube by `d` gives the cube whose lower and upper corners moved by `d` |
| Geometry.TimesScale | main.cpp:281-287 | `n` translations by `d` add up to one translation by `d` scaled by `n` |
| Geometry.SumTranslate | main.cpp:269-279 | translating every point adds `n` copies of `d` to the sum the `getCenter` loop accumulates |
| Geometry.Center | main.cpp:269-279 | what `getCenter` returns: eight times it is the sum of the vertices; `CenterTranslate` moves it with every translation, and `Cube3D.GetCenter` computes it |
| Geometry.CenterTranslate | main.cpp:269-287 | translating the cube moves `getCenter` by exactly `d` |
| Geometry.TranslateCompose | main.cpp:281-287 | `translate(a)` then `translate(b)` equals `translate(a + b)` |
| Geometry.TranslateInverse | main.cpp:281-287 | translating by `a` and then by `-a` restores every point |
| Geometry.TranslateZero | main.cpp:281-287 | translating by the zero vector changes nothing |
| Geometry.AsWrittenAlongY | main.cpp:290-306 | `rotate` as written, about a line along y, turns x and z about the line but scales y by `2 cos - 1` |
| Geometry.AsWrittenAlongZ | main.cpp:290-306 | `rotate` as written, about a line along z, turns x and y about the line but scales z by `2 cos - 1` |
| Geometry.AsWrittenAlongX | main.cpp:290-306 | `rotate` as written, about a line along x, keeps x and turns (y, z) about the line: the sign of the first reusable term does not show there |
| Geometry.AsWrittenIdentity | main.cpp:297-305 | `rotate` as written, by a zero angle (cos 1, sin 0), returns `p` unchanged |
| Geometry.AsWrittenMovesAxisPoint | main.cpp:297 | a quarter turn about the y axis moves the axis point (0, 1, 0) to (0, -1, 0) as written, and leaves it in place with the corrected term |
| Geometry.RotateAsWritten | main.cpp:290-306 | `rotate` exactly as written, with the first reusable term `u*x - v*y - w*z`; `AsWrittenIdentity`, `AsWrittenAlongX`, `AsWrittenAlongY` and `AsWrittenAlongZ` state what it does |
| Geometry.Rotate | main.cpp:290-306 | the rotation, with the first reusable term corrected, keeps x about a line along x, y about one along y, and z about one along z |
| Geometry.RotateIdentity | main.cpp:297-305 | with the corrected rotation (Findings row main.cpp:297), a zero angle (cos 1, sin 0) returns `p` unchanged |
| Geometry.RotateAlongX | main.cpp:290-306 | with the corrected rotation (Findings row main.cpp:297), about a line along x, x is kept and (y, z) turns about the line by the angle |
| Geometry.RotateAlongY | main.cpp:290-306 | with the corrected rotation (Findings row main.cpp:297), about a line along y, y is kept and (z, x) turns about the line by the angle |
| Geometry.RotateAlongZ | main.cpp:290-306 | with the corrected rotation (Findings row main.cpp:297), about a line along z, z is kept and (x, y) turns about the line by the angle |
| Geometry.RotateKeepsCoordinate | main.cpp:290-306 | with the corrected rotation (Findings row main.cpp:297), about a line along a coordinate axis, that coordinate is kept |
| Geometry.BoxAxes | main.cpp:312-328 | on an axis-aligned cube, X runs from the left face centre to the right one, Y from the bottom to the top, Z from the front to the back |
| Geometry.AxisTranslate | main.cpp:312-330 | translating the cube moves both face centres by the same vector, so the axis keeps its direction |
| Geometry.UnitAlongCoordinate | main.cpp:330 | with a Euclidean magnitude, the unit vector of an axis `h > 0` units along a coordinate is that coordinate's direction |
| Geometry.TurnAsWritten | main.cpp:308-336 | `rotateAbout` as written, on a cube whose axis runs `h > 0` units along its coordinate, is defined; about X it keeps every vertex's x, about Y it scales every y, and about Z every z, by `2 cos - 1` |
| Geometry.RotateAllAlongX | main.cpp:290-335 | turning every point with `rotate` as written about a line along x keeps each x |
| Geometry.RotateAllAlongY | main.cpp:290-335 | turning every point with `rotate` as written about a line along y scales each y by `2 cos - 1` |
| Geometry.RotateAllAlongZ | main.cpp:290-335 | turning every point with `rotate` as written about a line along z scales each z by `2 cos - 1` |
| Geometry.RotateAll | main.cpp:333-335 | the loop of `rotateAbout`: every vertex turned with `rotate` as written about the same line, one result per vertex; `RotateAllAlongX`, `RotateAllAlongY` and `RotateAllAlongZ` state what it does |
| Geometry.RotationOf | main.cpp:308-336 | what `rotateAbout` leaves in the array, eight vertices; `TurnAsWritten` and `RotationIdentity` state what it does, and `Cube3D.RotateAbout` computes it |
| Geometry.IntendedRotationOf | main.cpp:308-336 | `rotateAbout` with the corrected rotation (Findings row main.cpp:297), eight vertices; `TurnKeepsCoordinate` states what it does |
| Geometry.TurnKeepsCoordinate | main.cpp:308-336 | with the corrected rotation (Findings row main.cpp:297), turning a cube whose axis runs along a coordinate is defined and keeps that coordinate of every vertex |
| Geometry.RotationIdentity | main.cpp:308-336 | `rotateAbout` as written, by a zero angle, leaves the cube as it was |
| Geometry.Cube3D.constructor | main.cpp:260-266 | the constructor given eight points copies them into a fresh array |
| Geometry.Cube3D.Unit | main.cpp:247-258 | the constructor given no points builds the unit cube |
| Geometry.Cube3D.GetCenter | main.cpp:269-279 | the accumulating loop returns the sum of the vertices divided by 8 |
| Geometry.Cube3D.Translate | main.cpp:281-287 | the loop leaves every vertex moved by `distance` in place |
| Geometry.Cube3D.RotateAbout | main.cpp:308-336 | picks the axis' face centres, takes the unit vector between them and leaves every vertex turned about the line through the first by `rotate` as written |
| Projection.ProjectCoord | main.cpp:353-357 | a coordinate is finite exactly when the depth offset is non-zero, and not a number exactly when, in addition, the offset along the axis is zero or the screen is empty |
| Projection.ProjectPoint | main.cpp:351-357 | one vertex of `perspectiveProjection`: each screen coordinate is finite exactly when the vertex is not in the camera's depth plane; `ProjectKind`, `ProjectSide` and `ProjectCentered` state more |
| Projection.ProjectAll | main.cpp:343-361 | one screen point per vertex |
| Projection.PerspectiveProjection | main.cpp:343-361 | the loop fills the eight points with the projection of each vertex |
| Projection.ProjectTranslate | main.cpp:343-361 | moving the cube and the camera by the same vector leaves the picture unchanged |
| Projection.ProjectSide | main.cpp:353-357 | in front of the camera, a vertex left of it lands left of the middle, one in line with it in the middle and one to the right right of it; behind the camera the picture is mirrored |
| Projection.ProjectCentered | main.cpp:351-357 | a vertex with `d.x = 0` projects to `screenWidth / 2`, one with `d.y = 0` to `screenHeight / 2` |
| Projection.ProjectKind | main.cpp:351-357 | a vertex other than the camera projects to a finite point or to one with an infinite coordinate |
| Projection.ReferenceProjection | main.cpp:422-435 | the starting cube seen from the starting camera: the front face a centred square a third of the window wide, the back face one a fifth wide |
| Geometry.ReferenceCube | main.cpp:420-430 | the starting cube of `main`: eight vertices, an axis-aligned cube of side 5 spanning depths 5 to 10 |
| Render.EdgeAt | main.cpp:368-386 | each of the twelve lines joins two of the eight vertices |
| Render.DrawCube2D | main.cpp:363-389 | the four loops emit the plots of the twelve lines in drawing order: side edges 0-4, 1-5 yellow, 2-6, 3-7 blue, the front ring red, the back ring green |
| Render.ProjectedDrawable | main.cpp:363-389 | when no vertex sits at the camera, every line is either skipped by the infinity guard or has finite endpoints |
| Render.VertexAtCamera | main.cpp:343-361 | a vertex at the camera, with vertex 4 at another depth, projects to not a number in both coordinates, so the projected cube is not drawable: line 0-4 reaches `wuLine` with NaN endpoints, which pass its `isinf` guard (main.cpp:30) |
| Render.GuardedLines | main.cpp:368-386 | with the intended guard (Findings row main.cpp:30), the first `n` lines are defined on every projection and are `Lines` wherever that is defined |
| Render.GuardedDrawSpec | main.cpp:363-389 | with the intended guard (Findings row main.cpp:30), the picture is defined on every projected cube and is `DrawSpec` wherever `drawCube2D` is defined |
| Render.LinesColors | main.cpp:368-386 | each plot of the first `n` lines has the colour of one of those lines |
| Render.DrawColors | main.cpp:368-386 | only yellow, blue, red and green reach the screen |
| Render.DegreeThree | main.cpp:368-386 | every vertex is an end of exactly three lines |
| Render.EdgesAreCubeEdges | main.cpp:368-386 | each line joins two cube corners that differ in exactly one coordinate |
| Render.CubeEdgesDrawn | main.cpp:368-386 | every pair of corners differing in one coordinate is joined by one of the lines |
| Controls.MinWith | main.cpp:485 | `std::min` from `INFINITY` gives the distance; from a finite minimum it gives the smaller of the two |
| Controls.Nearest | main.cpp:481-486 | the fold of `std::min` over the vertex distances from `INFINITY` stays infinite only for no vertices and is never not a number; `NearestIsMinimum` states that it is the least distance |
| Controls.NearestIsMinimum | main.cpp:481-486 | the loop's minimum is finite, at most every vertex distance and equal to one |
| Controls.FarEnoughMeans | main.cpp:481-488 | with a Euclidean magnitude, the zoom-out guard holds exactly when every squared distance to the camera exceeds 0.25 |
| Controls.Transition | main.cpp:451-505 | only r changes the mode and only space moves the camera |
| Controls.ToggleTwice | main.cpp:499-501 | pressing r twice restores the scene |
| Controls.TranslateMovesCenter | main.cpp:453-489 | in translate mode a moving key shifts the cube's centre by its translation, unless keypad minus is refused by the guard, which leaves the scene unchanged |
| Controls.TranslateStep | main.cpp:453-489 | in translate mode a moving key the guard lets through translates every vertex by its shift |
| Controls.RotateStep | main.cpp:453-492 | in rotate mode a moving key turns every vertex about its axis, by +2.5 degrees for right, up and keypad plus and by -2.5 degrees otherwise |
| Controls.TranslateUndo | main.cpp:453-489 | in translate mode a key followed by its opposite restores the scene |
| Controls.OppositeShifts | main.cpp:453-489 | opposite keys translate by opposite vectors |
| Controls.TurnStretches | main.cpp:453-492 | in rotate mode, when the key's axis runs along its coordinate, up and down keep every vertex's x, but left and right scale every height, and the keypad keys every depth, by `2 cos - 1` |
| Controls.SpaceCentres | main.cpp:494-497 | after space, the cube's centre is straight ahead of the camera, at least five units deep, and appears in the middle of the window |
| Controls.Recentred | main.cpp:494-497 | space puts the camera level with the cube's centre in x and y, at least five units in front of it in depth |
| Controls.StartTurnable | main.cpp:420-433 | with a Euclidean magnitude, the starting cube can be turned about each of its axes |
| Controls.StartAxes | main.cpp:420-433 | the starting cube's axes run five units along x, y and z |
| Controls.StartHandles | main.cpp:432-437 | with a Euclidean magnitude, every key can be handled at the start, also after r switches to rotate mode |
| Controls.StartDrawable | main.cpp:420-435 | the first picture can be drawn: no vertex sits at the camera |
| Controls.Presses | main.cpp:453-489 | repeated presses of one key other than r, in translate mode, keep eight vertices and translate mode |
| Controls.SlidePresses | main.cpp:453-476 | `n` presses of an arrow key or keypad plus in translate mode translate the cube by `n` times the key's shift and leave the camera |
| Controls.BoxSlides | main.cpp:453-476 | `n` such presses move an axis-aligned cube to the cube whose corners moved by `n` times the key's shift |
| Controls.OffAxisFarEnough | main.cpp:481-488 | with a Euclidean magnitude, a side-5 cube with lower corner (0, 0, z) passes the zoom-out guard at the starting camera, at every depth z |
| Controls.ApproachStep | main.cpp:478-489 | one keypad minus press on such a cube passes the guard and moves it a quarter unit nearer |
| Controls.ApproachPresses | main.cpp:478-489 | `n` keypad minus presses move it `n` quarter units nearer |
| Controls.ReachCameraDepth | main.cpp:478-489 | from the start, 30 keypad minus presses bring the cube's front face to the camera's depth |
| Controls.ReachCameraSide | main.cpp:453-471 | then 10 right and 10 down presses bring vertex 0 onto the camera |
| Controls.CameraReachable | main.cpp:451-507 | from the start, keypad minus 30 times, right 10 times and down 10 times put vertex 0 on the camera; its projection is not a number in both coordinates, so the frame drawn next is not drawable (Findings row main.cpp:30) |
| Controls.Scene.constructor | main.cpp:420-437 | `main` starts with the reference cube, the camera at (2.5, 2.5, -2.5) and translate mode |
| Controls.Scene.NearestDistance | main.cpp:481-486 | the loop over the vertices returns the minimum `hypot` distance from the camera |
| Controls.Scene.HandleKey | main.cpp:451-505 | the key handler leaves the cube, camera and mode as `Transition` describes |
| Controls.Scene.Frame | main.cpp:507 | the frame after a key is the plots of the twelve lines of the projected cube |

## Left out

- SDL: initialisation, the window and renderer, event polling, `SDL_QUIT`, clearing and presenting, and the body of `plot`. They are calls into the host graphics library. Each `plot` call becomes a `Plot` record in an output sequence.
- The conversion of `brightness * 255.0` to the `Uint8` alpha in `plot`. The model keeps the brightness as a real.
- The `operator<<` printers of `Vector2` and `Vector3`. They only format output.
- IEEE-754 rounding. Every `double` is an exact real.
- Positive and negative infinity are one `Infinite` value. Which of the two a projection gives does not change what `wuLine` does with it.
- Raster.WuLine: C++ `int` is 32 bits wide, and the model's integers are unbounded. `plot` takes `int` coordinates (main.cpp:22), so each rounded endpoint and each `yIntersection` is converted to `int`, and the column loop counter is an `int` (main.cpp:82-87, 92-100). A coordinate outside the `int` range makes that conversion undefined, and a very long line would run the loop for billions of steps. The model assumes every coordinate fits.
- Raster.WuLine: requires `Defined`, that is, the line is skipped by the infinity guard or all four coordinates are finite. A not-a-number coordinate passes the `isinf` guard and reaches the conversion of a `double` to `int`, whose result C++ leaves undefined. `ProjectedDrawable` shows this cannot happen when no vertex sits at the camera, but the keys can bring a vertex onto the camera (Findings row main.cpp:30).
- Controls.Scene.Frame: requires `Drawable`, because where the projected cube is not drawable the program's behaviour is undefined. That state is reachable: from the start, keypad minus 30 times, right 10 times and down 10 times put vertex 0 on the camera, and the next frame calls `wuLine` with not-a-number endpoints (`CameraReachable`). `Render.GuardedDrawSpec` is the picture with the intended guard, defined in every state.
- The numerics of `hypot`, `cos`, `sin` and `M_PI`, and the conversion of degrees to radians. The magnitude is the parameter `norm`, and the cosine and sine of the angle are the parameters `c` and `s`.
- Controls.Transition: a turn by -2.5 degrees uses `(c, -s)` for the cosine and sine. That rests on `cos(-x) = cos x` and `sin(-x) = -sin x`, which the model does not derive.
- Geometry.Cube3D.RotateAbout: requires the axis' face centres to have a non-zero magnitude between them. The program divides by zero there, but for a cube of non-zero size that cannot happen, and `StartTurnable` shows it does not at the start.
- Rigidity and distance preservation of the corrected rotation about an arbitrary axis. For the corrected formula only the three coordinate axes are worked out (`RotateAlongX`, `RotateAlongY`, `RotateAlongZ`). The formula as written is not a rigid motion about the y and z axes (`AsWrittenAlongY`, `AsWrittenAlongZ`).
- Geometry.Axis: the axis is a datatype of three values rather than the `int` constants `X_AXIS`, `Y_AXIS`, `Z_AXIS`. The `switch` has no default, and every call passes one of the three.
- Raster.PlotInterior: the program writes the column loop once per orientation (main.cpp:82-87 and 95-100). The model has one loop that tests `steep` inside it; it emits the same plots.
- The `Cube2D` constructor from given points, which the program never calls.

## Findings

| source | as written | input that shows it | evidently intended | confidence | as-written member | corrected member |
|---|---|---|---|---|---|---|
| main.cpp:297 | `rotate` computes the first reusable term as `u*x - v*y - w*z`, so about a line along y the y coordinate is scaled by `2 cos - 1`, and likewise z about a line along z | a quarter turn (cos 0, sin 1) of the point (0, 1, 0) about the y axis through the origin moves it to (0, -1, 0), though it lies on the axis | `u*x + v*y + w*z`, the term of the point-about-line rotation formula the file's comments refer to (main.cpp:108); it keeps points on the axis in place | high; not executed | Geometry.AsWrittenMovesAxisPoint | Geometry.Rotate |
| main.cpp:30 | `wuLine` returns early only when a coordinate `isinf`; a not-a-number coordinate goes on to the `round`, `fPart` and the conversions to `int` for `plot`, which C++ leaves undefined | from the start, keypad minus 30 times, right 10 times and down 10 times put vertex 0 at the camera (2.5, 2.5, -2.5); the next frame projects it to (NaN, NaN), and line 0-4 is `wuLine(NaN, NaN, 200, 200)` | a line with any coordinate that is not finite draws nothing | high; not executed | Controls.CameraReachable | Raster.GuardedWuSpec |

`Geometry.RotateAsWritten` is the formula exactly as the program writes it, and the model turns the cube with it: `Geometry.RotationOf`, `Cube3D.RotateAbout`, `Controls.Transition` and `Scene.HandleKey` all use it. `Geometry.TurnAsWritten` and `Controls.TurnStretches` state what that does to a cube whose axes run along the coordinates: left and right scale every height, and the keypad keys every depth, by `2 cos - 1`. The corrected formula is `Geometry.Rotate`, and `Geometry.IntendedRotationOf` turns the cube with it. `Geometry.TurnKeepsCoordinate` proves the property the program evidently intends on it: a turn about an axis along a coordinate keeps that coordinate of every vertex.

`Controls.CameraReachable` exhibits the state in which the guard of `wuLine` lets a not-a-number line through: a vertex at the camera projects to not a number in both coordinates (`Render.VertexAtCamera`). The intended guard is `Raster.GuardedWuSpec`, which draws nothing for a line with any coordinate that is not finite and agrees with `WuSpec` wherever the program is defined; `Render.GuardedDrawSpec` builds the whole picture from it and agrees with `DrawSpec` on every drawable cube. `Scene.Frame` and `WuLine` keep the program's own guard and therefore require the picture to be defined.
