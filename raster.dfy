/** Wu's antialiased line rasteriser (`wuLine`). Each call of the host's
    `plot` becomes one `Plot` record appended to the output sequence; the
    function `WuSpec` describes that sequence and the method `WuLine`
    computes it the way the program does, with swaps and a column loop. */
module Raster {
  import opened Numeric
  import opened Vectors

  newtype Byte = x: int | 0 <= x < 256

  datatype Color = Color(r: Byte, g: Byte, b: Byte)

  /** One `plot` call: pixel column, pixel row, brightness (the alpha
      weight) and colour. */
  datatype Plot = Plot(x: int, y: int, brightness: real, color: Color)

  /** The endpoints after the steep transposition and the left-to-right
      swap: the loop runs along `x`, the major axis. */
  datatype Working = Working(steep: bool, x0: real, y0: real, x1: real, y1: real)

  /** The endpoint pair `(x, y)` as the working coordinates see it. */
  function Transpose(steep: bool, x: real, y: real): (real, real)
  {
    if steep then (y, x) else (x, y)
  }

  /** A working pair runs left to right with slope at most 1 in magnitude. */
  predicate Oriented(w: Working)
  {
    w.x0 <= w.x1 && Abs(w.y1 - w.y0) <= w.x1 - w.x0
  }

  /** The steep test, the transposition and the swap that orders the
      endpoints by their major coordinate. */
  function Orient(x0: real, y0: real, x1: real, y1: real): (w: Working)
    ensures w.steep <==> Abs(y1 - y0) > Abs(x1 - x0)
    ensures Oriented(w)
    ensures var p, q := Transpose(w.steep, x0, y0), Transpose(w.steep, x1, y1);
            (p == (w.x0, w.y0) && q == (w.x1, w.y1)) || (p == (w.x1, w.y1) && q == (w.x0, w.y0))
    ensures w.x0 == w.x1 ==> w.y0 == w.y1 && x0 == x1 && y0 == y1
  {
    var steep := Abs(y1 - y0) > Abs(x1 - x0);
    var p, q := Transpose(steep, x0, y0), Transpose(steep, x1, y1);
    if p.0 > q.0 then Working(steep, q.0, q.1, p.0, p.1)
    else Working(steep, p.0, p.1, q.0, q.1)
  }

  /** `dy / dx`, or exactly 1 when the two endpoints coincide. */
  function Gradient(w: Working): (g: real)
    requires Oriented(w)
    ensures -1.0 <= g <= 1.0
    ensures w.x0 == w.x1 ==> g == 1.0
    ensures w.x0 < w.x1 ==> Along(w.y0, g, w.x1 - w.x0) == w.y1
  {
    var dx, dy := w.x1 - w.x0, w.y1 - w.y0;
    if dx == 0.0 then 1.0 else SlopeBound(dy, dx); dy / dx
  }

  /** The row reached from row `y` after `run` columns at gradient `g`. */
  function Along(y: real, g: real, run: real): real
  {
    y + g * run
  }

  lemma SlopeBound(dy: real, dx: real)
    requires dx > 0.0 && Abs(dy) <= dx
    ensures -1.0 <= dy / dx <= 1.0 && dy / dx * dx == dy
  {
    var g := dy / dx;
    assert g * dx == dy;
  }

  /** One endpoint: its pixel column, the line's row at that column, and
      the share of the column the segment covers. */
  datatype EndPoint = EndPoint(column: int, yEnd: real, gap: real)

  function FirstEnd(w: Working, g: real): EndPoint
  {
    var xEnd := Round(w.x0);
    EndPoint(xEnd, Along(w.y0, g, xEnd as real - w.x0), RfPart(w.x0 + 0.5))
  }

  function SecondEnd(w: Working, g: real): EndPoint
  {
    var xEnd := Round(w.x1);
    EndPoint(xEnd, Along(w.y1, g, xEnd as real - w.x1), FPart(w.x1 + 0.5))
  }

  /** A plot at working column `major` and working row `minor`, written
      as (minor, major) on a steep line. */
  function Emit(steep: bool, major: int, minor: int, brightness: real, color: Color): Plot
  {
    if steep then Plot(minor, major, brightness, color) else Plot(major, minor, brightness, color)
  }

  function Major(steep: bool, p: Plot): int
  {
    if steep then p.y else p.x
  }

  /** An endpoint's brightness: its vertical share of the row times the
      share of the column the segment covers. */
  function Coverage(share: real, gap: real): real
  {
    share * gap
  }

  /** A share in [0, 1] of a non-negative gap lies between zero and the gap. */
  lemma CoverageBound(share: real, gap: real)
    requires 0.0 <= share <= 1.0 && 0.0 <= gap
    ensures 0.0 <= Coverage(share, gap) <= gap
  {
    MulNonNegative(share, gap);
    MulNonNegative(1.0 - share, gap);
  }

  /** The two plots of an endpoint: rows `floor(yEnd)` and the one below,
      each weighted by its vertical share times the horizontal gap. */
  function EndPlots(steep: bool, e: EndPoint, color: Color): seq<Plot>
  {
    [Emit(steep, e.column, Floor(e.yEnd), Coverage(RfPart(e.yEnd), e.gap), color),
     Emit(steep, e.column, Floor(e.yEnd) + 1, Coverage(FPart(e.yEnd), e.gap), color)]
  }

  lemma EndPlotsShape(steep: bool, e: EndPoint, color: Color)
    ensures EndPlots(steep, e, color)
            == if steep then [Plot(Floor(e.yEnd), e.column, Coverage(RfPart(e.yEnd), e.gap), color),
                              Plot(Floor(e.yEnd) + 1, e.column, Coverage(FPart(e.yEnd), e.gap), color)]
               else [Plot(e.column, Floor(e.yEnd), Coverage(RfPart(e.yEnd), e.gap), color),
                     Plot(e.column, Floor(e.yEnd) + 1, Coverage(FPart(e.yEnd), e.gap), color)]
  {
  }

  /** The number of columns from `first` to `last`, none when `last < first`. */
  function Span(first: int, last: int): nat
  {
    if last < first then 0 else last - first + 1
  }

  /** One interior column `x` at row `y`: the row converted to int, weighted
      by `rfPart`, and the row below, weighted by `fPart`. */
  function ColumnPlots(steep: bool, x: int, y: real, color: Color): seq<Plot>
  {
    [Emit(steep, x, Trunc(y), RfPart(y), color), Emit(steep, x, Trunc(y + 1.0), FPart(y), color)]
  }

  /** The interior columns `x .. last`, with the row `y` advancing by `g`
      from one column to the next. */
  function Interior(steep: bool, x: int, last: int, y: real, g: real, color: Color): (r: seq<Plot>)
    ensures |r| == 2 * Span(x, last)
    decreases Span(x, last)
  {
    if x > last then []
    else ColumnPlots(steep, x, y, color) + Interior(steep, x + 1, last, y + g, g, color)
  }

  /** One interior column, then the rest. */
  lemma InteriorUnfold(steep: bool, x: int, last: int, y: real, g: real, color: Color)
    requires x <= last
    ensures Interior(steep, x, last, y, g, color)
            == ColumnPlots(steep, x, y, color) + Interior(steep, x + 1, last, y + g, g, color)
  {
  }

  /** The interior of a working line: the columns strictly between the two
      endpoint columns, from the row one gradient step past the first
      endpoint's row. */
  function InteriorOf(w: Working, color: Color): seq<Plot>
    requires Oriented(w)
  {
    var g := Gradient(w);
    var e1, e2 := FirstEnd(w, g), SecondEnd(w, g);
    Interior(w.steep, e1.column + 1, e2.column - 1, e1.yEnd + g, g, color)
  }

  /** Everything a finite line plots: the first endpoint, the second, then
      the interior columns left to right. */
  function Rasterise(w: Working, color: Color): seq<Plot>
    requires Oriented(w)
  {
    var g := Gradient(w);
    EndPlots(w.steep, FirstEnd(w, g), color) + EndPlots(w.steep, SecondEnd(w, g), color) + InteriorOf(w, color)
  }

  /** The guard of `wuLine`: some coordinate is infinite. NaN does not
      trip it. */
  predicate Skipped(x0: Coord, y0: Coord, x1: Coord, y1: Coord)
  {
    x0.Infinite? || y0.Infinite? || x1.Infinite? || y1.Infinite?
  }

  predicate AllFinite(x0: Coord, y0: Coord, x1: Coord, y1: Coord)
  {
    x0.Finite? && y0.Finite? && x1.Finite? && y1.Finite?
  }

  /** `wuLine` is defined on its input: it returns at the guard, or every
      coordinate is a number. A NaN that passes the guard reaches the
      conversion of a `double` to `int`, which C++ leaves undefined. */
  predicate Defined(x0: Coord, y0: Coord, x1: Coord, y1: Coord)
  {
    Skipped(x0, y0, x1, y1) || AllFinite(x0, y0, x1, y1)
  }

  function WorkingOf(x0: Coord, y0: Coord, x1: Coord, y1: Coord): (w: Working)
    requires AllFinite(x0, y0, x1, y1)
    ensures Oriented(w)
  {
    Orient(x0.value, y0.value, x1.value, y1.value)
  }

  /** The plots `wuLine` emits: none for an infinite coordinate, otherwise
      four endpoint plots and two per interior column. */
  function WuSpec(x0: Coord, y0: Coord, x1: Coord, y1: Coord, color: Color): (r: seq<Plot>)
    requires Defined(x0, y0, x1, y1)
    ensures Skipped(x0, y0, x1, y1) ==> r == []
    ensures AllFinite(x0, y0, x1, y1) ==>
              var w := WorkingOf(x0, y0, x1, y1);
              |r| == 4 + 2 * Span(Round(w.x0) + 1, Round(w.x1) - 1)
  {
    if Skipped(x0, y0, x1, y1) then []
    else Rasterise(WorkingOf(x0, y0, x1, y1), color)
  }

  /** The plots `wuLine` evidently means to make: a line with a coordinate
      that is not a finite number draws nothing, so that not a number is
      turned away by the guard instead of reaching the conversion to `int`.
      Wherever `wuLine` is defined, it plots what `wuLine` plots. */
  function GuardedWuSpec(x0: Coord, y0: Coord, x1: Coord, y1: Coord, color: Color): (r: seq<Plot>)
    ensures !AllFinite(x0, y0, x1, y1) ==> r == []
    ensures Defined(x0, y0, x1, y1) ==> r == WuSpec(x0, y0, x1, y1, color)
  {
    if AllFinite(x0, y0, x1, y1) then Rasterise(WorkingOf(x0, y0, x1, y1), color) else []
  }

  /** `wuLine` itself: the guard on infinite coordinates, the steep
      transposition and the left-to-right swap, then the plotting. */
  method WuLine(x0: Coord, y0: Coord, x1: Coord, y1: Coord, color: Color) returns (plots: seq<Plot>)
    requires Defined(x0, y0, x1, y1)
    ensures plots == WuSpec(x0, y0, x1, y1, color)
  {
    if x0.Infinite? || y0.Infinite? || x1.Infinite? || y1.Infinite? {
      return [];
    }
    var ax0, ay0, ax1, ay1 := x0.value, y0.value, x1.value, y1.value;
    var steep := Abs(ay1 - ay0) > Abs(ax1 - ax0);
    if steep {
      ax0, ay0 := ay0, ax0;
      ax1, ay1 := ay1, ax1;
    }
    if ax0 > ax1 {
      ax0, ax1 := ax1, ax0;
      ay0, ay1 := ay1, ay0;
    }
    assert Working(steep, ax0, ay0, ax1, ay1) == WorkingOf(x0, y0, x1, y1);
    plots := PlotOriented(steep, ax0, ay0, ax1, ay1, color);
  }

  /** The plotting half of `wuLine`, on endpoints already transposed and
      ordered: the two endpoints, then the column loop that advances
      `yIntersection` by the gradient. */
  method PlotOriented(steep: bool, x0: real, y0: real, x1: real, y1: real, color: Color) returns (plots: seq<Plot>)
    requires Oriented(Working(steep, x0, y0, x1, y1))
    ensures plots == Rasterise(Working(steep, x0, y0, x1, y1), color)
  {
    ghost var w := Working(steep, x0, y0, x1, y1);
    var dx := x1 - x0;
    var dy := y1 - y0;
    var gradient := if dx == 0.0 then 1.0 else dy / dx;
    ghost var e1, e2 := FirstEnd(w, gradient), SecondEnd(w, gradient);

    var xEnd := Round(x0);
    var yEnd := Along(y0, gradient, xEnd as real - x0);
    var xGap := RfPart(x0 + 0.5);
    var xPixel1 := xEnd;
    var yPixel1 := Floor(yEnd);
    assert e1 == EndPoint(xPixel1, yEnd, xGap);
    EndPlotsShape(steep, e1, color);
    if steep {
      plots := [Plot(yPixel1, xPixel1, Coverage(RfPart(yEnd), xGap), color),
                Plot(yPixel1 + 1, xPixel1, Coverage(FPart(yEnd), xGap), color)];
    } else {
      plots := [Plot(xPixel1, yPixel1, Coverage(RfPart(yEnd), xGap), color),
                Plot(xPixel1, yPixel1 + 1, Coverage(FPart(yEnd), xGap), color)];
    }
    assert plots == EndPlots(steep, e1, color);
    var yIntersection := yEnd + gradient;

    xEnd := Round(x1);
    yEnd := Along(y1, gradient, xEnd as real - x1);
    xGap := FPart(x1 + 0.5);
    var xPixel2 := xEnd;
    var yPixel2 := Floor(yEnd);
    assert e2 == EndPoint(xPixel2, yEnd, xGap);
    EndPlotsShape(steep, e2, color);
    if steep {
      plots := plots + [Plot(yPixel2, xPixel2, Coverage(RfPart(yEnd), xGap), color),
                        Plot(yPixel2 + 1, xPixel2, Coverage(FPart(yEnd), xGap), color)];
    } else {
      plots := plots + [Plot(xPixel2, yPixel2, Coverage(RfPart(yEnd), xGap), color),
                        Plot(xPixel2, yPixel2 + 1, Coverage(FPart(yEnd), xGap), color)];
    }
    assert plots == EndPlots(steep, e1, color) + EndPlots(steep, e2, color);
    var interior := PlotInterior(steep, xPixel1 + 1, xPixel2 - 1, yIntersection, gradient, color);
    plots := plots + interior;
  }

  /** The column loop of `wuLine`: two plots per column from `first` to
      `last`, advancing `yIntersection` by the gradient. The program writes
      this loop once per orientation; testing the orientation inside one
      loop plots the same sequence. */
  method PlotInterior(steep: bool, first: int, last: int, y: real, gradient: real, color: Color)
    returns (plots: seq<Plot>)
    ensures plots == Interior(steep, first, last, y, gradient, color)
  {
    plots := [];
    var x := first;
    var yIntersection := y;
    while x <= last
      invariant plots + Interior(steep, x, last, yIntersection, gradient, color)
                == Interior(steep, first, last, y, gradient, color)
      decreases last - x
    {
      InteriorUnfold(steep, x, last, yIntersection, gradient, color);
      if steep {
        plots := plots + [Plot(Trunc(yIntersection), x, RfPart(yIntersection), color),
                          Plot(Trunc(yIntersection + 1.0), x, FPart(yIntersection), color)];
      } else {
        plots := plots + [Plot(x, Trunc(yIntersection), RfPart(yIntersection), color),
                          Plot(x, Trunc(yIntersection + 1.0), FPart(yIntersection), color)];
      }
      yIntersection := yIntersection + gradient;
      x := x + 1;
    }
  }

  /** The row after `k` interior columns: `g` added `k` times, as the
      column loop adds the gradient once per column. */
  function RowAfter(y: real, g: real, k: nat): real
  {
    if k == 0 then y else RowAfter(y, g, k - 1) + g
  }

  /** Starting one column later from the next row reaches the same rows. */
  lemma {:induction false} RowAfterStep(y: real, g: real, k: nat)
    ensures RowAfter(y + g, g, k) == RowAfter(y, g, k + 1)
  {
    if k > 0 {
      RowAfterStep(y, g, k - 1);
    }
  }

  /** The k-th interior column in closed form: column `x + k` at the row
      reached after `k` gradient steps. */
  lemma {:induction false} InteriorAt(steep: bool, x: int, last: int, y: real, g: real, color: Color, k: nat)
    requires k < Span(x, last)
    ensures var r, column := Interior(steep, x, last, y, g, color), ColumnPlots(steep, x + k, RowAfter(y, g, k), color);
            r[2 * k] == column[0] && r[2 * k + 1] == column[1]
    decreases k
  {
    var r, rest := Interior(steep, x, last, y, g, color), Interior(steep, x + 1, last, y + g, g, color);
    InteriorUnfold(steep, x, last, y, g, color);
    if k > 0 {
      InteriorAt(steep, x + 1, last, y + g, g, color, k - 1);
      RowAfterStep(y, g, k - 1);
      assert r[2 * k] == rest[2 * (k - 1)] && r[2 * k + 1] == rest[2 * (k - 1) + 1];
    }
  }

  /** What every interior plot satisfies: plot `i` lies on column
      `x + i / 2`, its brightness is in [0, 1], and each column's two
      brightnesses add up to exactly 1. */
  lemma InteriorPlot(steep: bool, x: int, last: int, y: real, g: real, color: Color, i: nat)
    requires i < 2 * Span(x, last)
    ensures var r := Interior(steep, x, last, y, g, color);
            Major(steep, r[i]) == x + i / 2 && 0.0 <= r[i].brightness <= 1.0
            && (i % 2 == 0 ==> r[i].brightness + r[i + 1].brightness == 1.0)
  {
    var k := i / 2;
    InteriorAt(steep, x, last, y, g, color, k);
    var row := RowAfter(y, g, k);
    assert RfPart(row) + FPart(row) == 1.0;
  }

  /** The two shares of an endpoint add up to the endpoint's gap. */
  lemma CoverageSplit(row: real, gap: real)
    ensures Coverage(RfPart(row), gap) + Coverage(FPart(row), gap) == gap
  {
    var a, b := RfPart(row), FPart(row);
    assert a * gap + b * gap == (a + b) * gap;
  }

  /** Every brightness `wuLine` passes to `plot` lies in [0, 1]. */
  lemma BrightnessInRange(x0: Coord, y0: Coord, x1: Coord, y1: Coord, color: Color)
    requires Defined(x0, y0, x1, y1)
    ensures forall p :: p in WuSpec(x0, y0, x1, y1, color) ==> 0.0 <= p.brightness <= 1.0
  {
    if !Skipped(x0, y0, x1, y1) {
      var w := WorkingOf(x0, y0, x1, y1);
      var g := Gradient(w);
      var e1, e2 := FirstEnd(w, g), SecondEnd(w, g);
      var inner := InteriorOf(w, color);
      var r := WuSpec(x0, y0, x1, y1, color);
      assert r == EndPlots(w.steep, e1, color) + EndPlots(w.steep, e2, color) + inner;
      CoverageBound(RfPart(e1.yEnd), e1.gap);
      CoverageBound(FPart(e1.yEnd), e1.gap);
      CoverageBound(RfPart(e2.yEnd), e2.gap);
      CoverageBound(FPart(e2.yEnd), e2.gap);
      forall i | 4 <= i < |r|
        ensures 0.0 <= r[i].brightness <= 1.0
      {
        InteriorPlot(w.steep, e1.column + 1, e2.column - 1, e1.yEnd + g, g, color, i - 4);
        assert r[i] == inner[i - 4];
      }
    }
  }

  /** Every plot of an interior run carries the line's colour. */
  lemma {:induction false} InteriorColor(steep: bool, x: int, last: int, y: real, g: real, color: Color)
    ensures forall p :: p in Interior(steep, x, last, y, g, color) ==> p.color == color
    decreases Span(x, last)
  {
    if x <= last {
      InteriorColor(steep, x + 1, last, y + g, g, color);
    }
  }

  /** Every plot `wuLine` makes is in the colour it was given. */
  lemma LineColor(x0: Coord, y0: Coord, x1: Coord, y1: Coord, color: Color)
    requires Defined(x0, y0, x1, y1)
    ensures forall p :: p in WuSpec(x0, y0, x1, y1, color) ==> p.color == color
  {
    if !Skipped(x0, y0, x1, y1) {
      var w := WorkingOf(x0, y0, x1, y1);
      var g := Gradient(w);
      var e1, e2 := FirstEnd(w, g), SecondEnd(w, g);
      InteriorColor(w.steep, e1.column + 1, e2.column - 1, e1.yEnd + g, g, color);
    }
  }

  /** The endpoint pairs share their column with the rest of the line:
      their two brightnesses add up to the endpoint's gap, which is in
      (0, 1] for the first endpoint and in [0, 1) for the second. */
  lemma EndShares(w: Working, color: Color)
    requires Oriented(w)
    ensures var g := Gradient(w);
            var r := Rasterise(w, color);
            var gap1, gap2 := FirstEnd(w, g).gap, SecondEnd(w, g).gap;
            0.0 < gap1 <= 1.0 && 0.0 <= gap2 < 1.0
            && r[0].brightness + r[1].brightness == gap1
            && r[2].brightness + r[3].brightness == gap2
  {
    var g := Gradient(w);
    var e1, e2 := FirstEnd(w, g), SecondEnd(w, g);
    var r := Rasterise(w, color);
    assert r[..2] == EndPlots(w.steep, e1, color);
    assert r[2..4] == EndPlots(w.steep, e2, color);
    CoverageSplit(e1.yEnd, e1.gap);
    CoverageSplit(e2.yEnd, e2.gap);
  }

  /** Each interior column's two plots add up to a brightness of exactly 1. */
  lemma InteriorShares(w: Working, color: Color)
    requires Oriented(w)
    ensures var r := InteriorOf(w, color);
            forall i :: 0 <= i < |r| && i % 2 == 0 ==> r[i].brightness + r[i + 1].brightness == 1.0
  {
    var g := Gradient(w);
    var e1, e2 := FirstEnd(w, g), SecondEnd(w, g);
    var r := InteriorOf(w, color);
    forall i | 0 <= i < |r| && i % 2 == 0
      ensures r[i].brightness + r[i + 1].brightness == 1.0
    {
      InteriorPlot(w.steep, e1.column + 1, e2.column - 1, e1.yEnd + g, g, color, i);
    }
  }

  /** The columns along the major axis: both plots of each endpoint sit on
      its rounded column, and interior plot `i` on column
      `round(x0) + 1 + i / 2`, strictly between the two. On a steep line
      the major coordinate is the plot's y. */
  lemma Columns(w: Working, color: Color)
    requires Oriented(w)
    ensures var r, inner := Rasterise(w, color), InteriorOf(w, color);
            Major(w.steep, r[0]) == Major(w.steep, r[1]) == Round(w.x0)
            && Major(w.steep, r[2]) == Major(w.steep, r[3]) == Round(w.x1)
            && (forall i :: 0 <= i < |inner| ==> Major(w.steep, inner[i]) == Round(w.x0) + 1 + i / 2)
            && (forall i :: 0 <= i < |inner| ==> Round(w.x0) < Major(w.steep, inner[i]) < Round(w.x1))
  {
    var g := Gradient(w);
    var e1, e2 := FirstEnd(w, g), SecondEnd(w, g);
    var r, inner := Rasterise(w, color), InteriorOf(w, color);
    assert r[..2] == EndPlots(w.steep, e1, color);
    assert r[2..4] == EndPlots(w.steep, e2, color);
    forall i | 0 <= i < |inner|
      ensures Major(w.steep, inner[i]) == Round(w.x0) + 1 + i / 2
    {
      InteriorPlot(w.steep, e1.column + 1, e2.column - 1, e1.yEnd + g, g, color, i);
    }
  }

  /** A shallow line from (0, 0) to (3, 1): not steep, eight plots, the
      interior columns 1 and 2 sharing their brightness in thirds. */
  lemma ShallowLineExample(color: Color)
    ensures var r := WuSpec(Finite(0.0), Finite(0.0), Finite(3.0), Finite(1.0), color);
            !WorkingOf(Finite(0.0), Finite(0.0), Finite(3.0), Finite(1.0)).steep
            && r == [Plot(0, 0, 0.5, color), Plot(0, 1, 0.0, color),
                     Plot(3, 1, 0.5, color), Plot(3, 2, 0.0, color),
                     Plot(1, 0, 2.0 / 3.0, color), Plot(1, 1, 1.0 / 3.0, color),
                     Plot(2, 0, 1.0 / 3.0, color), Plot(2, 1, 2.0 / 3.0, color)]
  {
    var w := WorkingOf(Finite(0.0), Finite(0.0), Finite(3.0), Finite(1.0));
    assert WuSpec(Finite(0.0), Finite(0.0), Finite(3.0), Finite(1.0), color) == Rasterise(w, color);
    assert w == Working(false, 0.0, 0.0, 3.0, 1.0);
    var g := Gradient(w);
    assert g == 1.0 / 3.0;
    var e1, e2 := FirstEnd(w, g), SecondEnd(w, g);
    assert e1 == EndPoint(0, 0.0, 0.5);
    assert e2 == EndPoint(3, 1.0, 0.5);
    assert EndPlots(false, e1, color) == [Plot(0, 0, 0.5, color), Plot(0, 1, 0.0, color)];
    assert EndPlots(false, e2, color) == [Plot(3, 1, 0.5, color), Plot(3, 2, 0.0, color)];
    ShallowInterior(g, color);
    assert InteriorOf(w, color) == Interior(false, 1, 2, 1.0 / 3.0, g, color);
  }

  /** The two interior columns of the line from (0, 0) to (3, 1). */
  lemma ShallowInterior(g: real, color: Color)
    requires g == 1.0 / 3.0
    ensures Interior(false, 1, 2, 1.0 / 3.0, g, color)
            == [Plot(1, 0, 2.0 / 3.0, color), Plot(1, 1, 1.0 / 3.0, color),
                Plot(2, 0, 1.0 / 3.0, color), Plot(2, 1, 2.0 / 3.0, color)]
  {
    InteriorUnfold(false, 1, 2, 1.0 / 3.0, g, color);
    InteriorUnfold(false, 2, 2, 2.0 / 3.0, g, color);
    assert Trunc(1.0 / 3.0) == 0 && Trunc(4.0 / 3.0) == 1;
    assert Trunc(2.0 / 3.0) == 0 && Trunc(5.0 / 3.0) == 1;
    assert ColumnPlots(false, 1, 1.0 / 3.0, color) == [Plot(1, 0, 2.0 / 3.0, color), Plot(1, 1, 1.0 / 3.0, color)];
    assert ColumnPlots(false, 2, 2.0 / 3.0, color) == [Plot(2, 0, 1.0 / 3.0, color), Plot(2, 1, 2.0 / 3.0, color)];
  }

  /** Interior rows are converted by truncation toward zero, not floor: on
      the horizontal line at y = -0.5 from x = 0 to 2 the endpoints use rows
      -1 and 0, but both plots of the middle column land on row 0. */
  lemma TruncatedRowsExample(color: Color)
    ensures var r := WuSpec(Finite(0.0), Finite(-0.5), Finite(2.0), Finite(-0.5), color);
            |r| == 6
            && r[0].y == -1 && r[1].y == 0
            && r[4].x == r[5].x == 1 && r[4].y == r[5].y == 0
  {
    var w := WorkingOf(Finite(0.0), Finite(-0.5), Finite(2.0), Finite(-0.5));
    assert WuSpec(Finite(0.0), Finite(-0.5), Finite(2.0), Finite(-0.5), color) == Rasterise(w, color);
    assert w == Working(false, 0.0, -0.5, 2.0, -0.5);
    var g := Gradient(w);
    assert g == 0.0;
    assert FirstEnd(w, g) == EndPoint(0, -0.5, 0.5);
    assert SecondEnd(w, g) == EndPoint(2, -0.5, 0.5);
    InteriorUnfold(false, 1, 1, -0.5, g, color);
  }
}
