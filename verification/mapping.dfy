/**
 * `Chart.calcPoints` / `Chart.calcY` (tinyChart.js), the pass that turns
 * `{time, value[]}` points into pixel coordinates and flags the points under
 * the pointer. The same formulas serve the earlier demo.js variant with its
 * own margins, which is why the margins live in a Frame.
 */
module Mapping {

  import opened Wrappers
  import opened JsNumber
  import opened Series

  /**
   * Logical canvas size and the four plot margins, in pixels. The left margin
   * includes the measured width of the unit symbol, taken here as a whole
   * number of pixels.
   */
  datatype Frame = Frame(width: int, height: int, left: int, right: int, top: int, bottom: int)

  /** Gap between a plot edge and the first or last point. */
  const INSET: int := 15
  /** Half-width of the hover window around a point. */
  const HOVER: int := 10

  /** The horizontal room the points spread over: `ctxWidth - MARGIN_LEFT - MARGIN_RIGHT - 30`. */
  function PlotWidth(f: Frame): int
  {
    f.width - f.left - f.right - 2 * INSET
  }

  /** `ctxHeight - MARGIN_TOP - MARGIN_BOTTOM` */
  function PlotHeight(f: Frame): int
  {
    f.height - f.top - f.bottom
  }

  /** `MARGIN_LEFT + 15 + ~~((time - t0) * plotWidth / xRange)` */
  function XOf(f: Frame, t0: int, tn: int, t: int): int
  {
    f.left + INSET + Scale((t - t0) as real, PlotWidth(f) as real, (tn - t0) as real)
  }

  /** `calcY` for a defined range: `ctxHeight - ~~((v - minY) * plotHeight / yRange) - MARGIN_BOTTOM`. */
  function YOf(f: Frame, g: Range, v: real): int
  {
    f.height - Scale(v - g.lo, PlotHeight(f) as real, g.hi - g.lo) - f.bottom
  }

  /**
   * `calcY` in general. While `minY` is undefined the quotient is NaN, which
   * `~~` sends to 0.
   */
  function CalcY(f: Frame, r: Option<Range>, v: real): int
  {
    if r.None? then f.height - f.bottom else YOf(f, r.value, v)
  }

  /** `pointerX >= x - 10 && pointerX <= x + 10` */
  predicate Hovered(pointerX: int, x: int)
  {
    x - HOVER <= pointerX <= x + HOVER
  }

  /** A point after `calcPoints`: the copied input plus `x`, `y[]` and `isSelected`. */
  datatype MappedPoint = MappedPoint(point: RawPoint, x: int, ys: seq<int>, selected: bool)

  /** The input points a mapped list was computed from. */
  function Points(m: seq<MappedPoint>): (ps: seq<RawPoint>)
    ensures |ps| == |m|
    ensures forall j :: 0 <= j < |m| ==> ps[j] == m[j].point
  {
    seq(|m|, j requires 0 <= j < |m| => m[j].point)
  }

  function MapPoint(f: Frame, delimiters: seq<real>, r: Option<Range>, t0: int, tn: int,
                    p: RawPoint, pointerX: int): MappedPoint
  {
    var x := XOf(f, t0, tn, p.time);
    var ys := seq(|p.values|, i requires 0 <= i < |p.values| => CalcY(f, r, Scaled(p, delimiters, i)));
    MappedPoint(p, x, ys, Hovered(pointerX, x))
  }

  /**
   * `calcPoints(points)`. The source reads `points[0]` unguarded, so an empty
   * list is outside its domain.
   */
  function CalcPoints(f: Frame, delimiters: seq<real>, pts: seq<RawPoint>, pointerX: int): (m: seq<MappedPoint>)
    requires 1 <= |pts|
    ensures Points(m) == pts
    ensures forall j :: 0 <= j < |m| ==> |m[j].ys| == |pts[j].values|
    ensures forall j :: 0 <= j < |m| ==> (m[j].selected <==> Hovered(pointerX, m[j].x))
  {
    var t0 := pts[0].time;
    var tn := pts[|pts| - 1].time;
    var r := Extremes(pts, delimiters);
    seq(|pts|, j requires 0 <= j < |pts| => MapPoint(f, delimiters, r, t0, tn, pts[j], pointerX))
  }

  predicate TimesNondecreasing(pts: seq<RawPoint>)
  {
    forall j, k :: 0 <= j <= k < |pts| ==> pts[j].time <= pts[k].time
  }

  /** Between the first and last timestamps, X stays in the plot and keeps time order. */
  lemma XWithinPlot(f: Frame, t0: int, tn: int, t: int, t': int)
    requires t0 <= t <= t' <= tn && t0 < tn
    requires 0 <= PlotWidth(f) < TWO_31
    ensures f.left + INSET <= XOf(f, t0, tn, t) <= XOf(f, t0, tn, t') <= f.width - f.right - INSET
  {
    ScaleBetween((t - t0) as real, (t' - t0) as real, PlotWidth(f), (tn - t0) as real);
  }

  /**
   * The first point sits `INSET` pixels right of the left margin. When the time
   * span is not zero the last one sits `INSET` pixels left of the right margin.
   */
  lemma XEndpoints(f: Frame, t0: int, tn: int)
    ensures XOf(f, t0, tn, t0) == f.left + INSET
    ensures t0 != tn && -TWO_31 < PlotWidth(f) < TWO_31 ==> XOf(f, t0, tn, tn) == f.width - f.right - INSET
  {
    if t0 != tn && -TWO_31 < PlotWidth(f) < TWO_31 {
      ScaleFull(PlotWidth(f), (tn - t0) as real);
    }
  }

  /** The X of each mapped point, from the first and last timestamps of the list. */
  lemma MappedX(f: Frame, delimiters: seq<real>, pts: seq<RawPoint>, pointerX: int, j: int)
    requires 0 <= j < |pts|
    ensures CalcPoints(f, delimiters, pts, pointerX)[j].x == XOf(f, pts[0].time, pts[|pts| - 1].time, pts[j].time)
  {
  }

  /** The first mapped point is at the left inset and, for a nonzero span, the last at the right inset. */
  lemma MappedXEndpoints(f: Frame, delimiters: seq<real>, pts: seq<RawPoint>, pointerX: int)
    requires 1 <= |pts|
    ensures CalcPoints(f, delimiters, pts, pointerX)[0].x == f.left + INSET
    ensures pts[0].time != pts[|pts| - 1].time && -TWO_31 < PlotWidth(f) < TWO_31 ==>
              CalcPoints(f, delimiters, pts, pointerX)[|pts| - 1].x == f.width - f.right - INSET
  {
    MappedX(f, delimiters, pts, pointerX, 0);
    MappedX(f, delimiters, pts, pointerX, |pts| - 1);
    XEndpoints(f, pts[0].time, pts[|pts| - 1].time);
  }

  /** With a zero time span, `~~` of NaN or an infinity is 0: every point lands on the first column. */
  lemma XCollapsesOnZeroSpan(f: Frame, delimiters: seq<real>, pts: seq<RawPoint>, pointerX: int)
    requires 1 <= |pts| && pts[0].time == pts[|pts| - 1].time
    ensures forall j :: 0 <= j < |pts| ==> CalcPoints(f, delimiters, pts, pointerX)[j].x == f.left + INSET
  {
    forall j | 0 <= j < |pts|
      ensures CalcPoints(f, delimiters, pts, pointerX)[j].x == f.left + INSET
    {
      MappedX(f, delimiters, pts, pointerX, j);
    }
  }

  /** Points in time order get nondecreasing X between the two insets. */
  lemma XNondecreasing(f: Frame, delimiters: seq<real>, pts: seq<RawPoint>, pointerX: int)
    requires 1 <= |pts| && TimesNondecreasing(pts)
    requires 0 <= PlotWidth(f) < TWO_31
    ensures forall j, k :: 0 <= j <= k < |pts| ==>
              CalcPoints(f, delimiters, pts, pointerX)[j].x <= CalcPoints(f, delimiters, pts, pointerX)[k].x
    ensures forall j :: 0 <= j < |pts| ==>
              f.left + INSET <= CalcPoints(f, delimiters, pts, pointerX)[j].x <= f.width - f.right - INSET
  {
    var m := CalcPoints(f, delimiters, pts, pointerX);
    var t0 := pts[0].time;
    var tn := pts[|pts| - 1].time;
    forall j, k | 0 <= j <= k < |pts|
      ensures m[j].x <= m[k].x
      ensures f.left + INSET <= m[j].x <= f.width - f.right - INSET
    {
      MappedX(f, delimiters, pts, pointerX, j);
      MappedX(f, delimiters, pts, pointerX, k);
      if t0 < tn {
        XWithinPlot(f, t0, tn, pts[j].time, pts[k].time);
      }
    }
  }

  /**
   * On a canvas narrower than its margins and insets the plot width is
   * negative: X runs from the left inset leftwards, later times further left.
   */
  lemma XReversedOnNarrowPlot(f: Frame, t0: int, tn: int, t: int, t': int)
    requires t0 <= t <= t' <= tn && t0 < tn
    requires -TWO_31 < PlotWidth(f) <= 0
    ensures f.width - f.right - INSET <= XOf(f, t0, tn, t') <= XOf(f, t0, tn, t) <= f.left + INSET
  {
    ScaleBetweenReversed((t - t0) as real, (t' - t0) as real, PlotWidth(f), (tn - t0) as real);
  }

  /** Points in time order get nonincreasing X on a plot of negative width. */
  lemma XNonincreasingOnNarrowPlot(f: Frame, delimiters: seq<real>, pts: seq<RawPoint>, pointerX: int)
    requires 1 <= |pts| && TimesNondecreasing(pts)
    requires -TWO_31 < PlotWidth(f) <= 0
    ensures forall j, k :: 0 <= j <= k < |pts| ==>
              CalcPoints(f, delimiters, pts, pointerX)[k].x <= CalcPoints(f, delimiters, pts, pointerX)[j].x
    ensures forall j :: 0 <= j < |pts| ==>
              f.width - f.right - INSET <= CalcPoints(f, delimiters, pts, pointerX)[j].x <= f.left + INSET
  {
    var m := CalcPoints(f, delimiters, pts, pointerX);
    var t0 := pts[0].time;
    var tn := pts[|pts| - 1].time;
    forall j, k | 0 <= j <= k < |pts|
      ensures m[k].x <= m[j].x
      ensures f.width - f.right - INSET <= m[j].x <= f.left + INSET
    {
      MappedX(f, delimiters, pts, pointerX, j);
      MappedX(f, delimiters, pts, pointerX, k);
      if t0 < tn {
        XReversedOnNarrowPlot(f, t0, tn, pts[j].time, pts[k].time);
      }
    }
  }

  /**
   * A 50 px canvas with a 45 px left margin: the later point is drawn 35 px
   * left of the earlier one.
   */
  lemma NarrowCanvasReversesX()
    ensures var m := CalcPoints(Frame(50, 300, 45, 10, 15, 80), [], [RawPoint(0, [1.0]), RawPoint(1000, [2.0])], 0);
            m[0].x == 60 && m[1].x == 25
  {
    NarrowXs(Frame(50, 300, 45, 10, 15, 80), [RawPoint(0, [1.0]), RawPoint(1000, [2.0])]);
  }

  lemma NarrowXs(f: Frame, pts: seq<RawPoint>)
    requires f == Frame(50, 300, 45, 10, 15, 80)
    requires |pts| == 2 && pts[0].time == 0 && pts[1].time == 1000
    ensures CalcPoints(f, [], pts, 0)[0].x == 60 && CalcPoints(f, [], pts, 0)[1].x == 25
  {
    MappedX(f, [], pts, 0, 0);
    MappedX(f, [], pts, 0, 1);
    assert PlotWidth(f) == -35;
    assert Mul(1000.0, -35.0) / 1000.0 == -35.0;
    TruncOfInt(-35);
    ScaleNothing(0.0, -35.0, 1000.0);
  }

  /** Between `minY` and `maxY`, Y stays in the plot and larger values sit higher (smaller Y). */
  lemma YWithinPlot(f: Frame, g: Range, v: real, v': real)
    requires g.lo <= v <= v' <= g.hi
    requires 0 <= PlotHeight(f) < TWO_31
    ensures f.top <= YOf(f, g, v') <= YOf(f, g, v) <= f.height - f.bottom
  {
    if g.lo < g.hi {
      ScaleBetween(v - g.lo, v' - g.lo, PlotHeight(f), g.hi - g.lo);
    }
  }

  /** `calcY(minY)` is the bottom edge of the plot and `calcY(maxY)` its top edge. */
  lemma YEndpoints(f: Frame, g: Range)
    requires g.lo < g.hi
    requires -TWO_31 < PlotHeight(f) < TWO_31
    ensures YOf(f, g, g.lo) == f.height - f.bottom
    ensures YOf(f, g, g.hi) == f.top
  {
    ScaleFull(PlotHeight(f), g.hi - g.lo);
    ScaleNothing(0.0, PlotHeight(f) as real, g.hi - g.lo);
  }

  /** With no range or a zero-height range every value maps to the bottom edge. */
  lemma YFlatWhenDegenerate(f: Frame, r: Option<Range>, v: real)
    requires r.None? || r.value.lo == r.value.hi
    ensures CalcY(f, r, v) == f.height - f.bottom
  {
  }

  /** The Y of each mapped value, from the range of the whole list. */
  lemma MappedY(f: Frame, delimiters: seq<real>, pts: seq<RawPoint>, pointerX: int, j: int, i: int)
    requires 0 <= j < |pts| && 0 <= i < |pts[j].values|
    ensures CalcPoints(f, delimiters, pts, pointerX)[j].ys[i] == CalcY(f, Extremes(pts, delimiters), Scaled(pts[j], delimiters, i))
  {
  }

  /** Every mapped Y lies between the top and bottom plot edges. */
  lemma MappedYInPlot(f: Frame, delimiters: seq<real>, pts: seq<RawPoint>, pointerX: int)
    requires 1 <= |pts|
    requires 0 <= PlotHeight(f) < TWO_31
    ensures forall j, i | 0 <= j < |pts| && 0 <= i < |pts[j].values| ::
              f.top <= CalcPoints(f, delimiters, pts, pointerX)[j].ys[i] <= f.height - f.bottom
  {
    var r := Extremes(pts, delimiters);
    forall j, i | 0 <= j < |pts| && 0 <= i < |pts[j].values|
      ensures f.top <= CalcPoints(f, delimiters, pts, pointerX)[j].ys[i] <= f.height - f.bottom
    {
      var v := Scaled(pts[j], delimiters, i);
      MappedY(f, delimiters, pts, pointerX, j, i);
      if r.Some? {
        YWithinPlot(f, r.value, v, v);
      }
    }
  }

  /**
   * On a canvas shorter than its margins the plot height is negative: the
   * "top" edge lies below the bottom one and larger values sit lower.
   */
  lemma YReversedOnShortPlot(f: Frame, g: Range, v: real, v': real)
    requires g.lo <= v <= v' <= g.hi
    requires -TWO_31 < PlotHeight(f) <= 0
    ensures f.height - f.bottom <= YOf(f, g, v) <= YOf(f, g, v') <= f.top
  {
    if g.lo < g.hi {
      ScaleBetweenReversed(v - g.lo, v' - g.lo, PlotHeight(f), g.hi - g.lo);
    }
  }

  /** On a plot of negative height every mapped Y lies between the bottom edge and the (lower) top edge. */
  lemma MappedYOnShortPlot(f: Frame, delimiters: seq<real>, pts: seq<RawPoint>, pointerX: int)
    requires 1 <= |pts|
    requires -TWO_31 < PlotHeight(f) <= 0
    ensures forall j, i | 0 <= j < |pts| && 0 <= i < |pts[j].values| ::
              f.height - f.bottom <= CalcPoints(f, delimiters, pts, pointerX)[j].ys[i] <= f.top
  {
    var r := Extremes(pts, delimiters);
    forall j, i | 0 <= j < |pts| && 0 <= i < |pts[j].values|
      ensures f.height - f.bottom <= CalcPoints(f, delimiters, pts, pointerX)[j].ys[i] <= f.top
    {
      var v := Scaled(pts[j], delimiters, i);
      MappedY(f, delimiters, pts, pointerX, j, i);
      if r.Some? {
        YReversedOnShortPlot(f, r.value, v, v);
      }
    }
  }

  /**
   * Selection is decided per point, not "last match wins": two points 8 px
   * apart are both flagged when the pointer is between them.
   */
  lemma SeveralSelected()
    ensures var m := CalcPoints(Frame(93, 300, 45, 10, 15, 80), [], [RawPoint(0, [1.0]), RawPoint(1000, [2.0])], 64);
            m[0].selected && m[1].selected && m[0].x == 60 && m[1].x == 68
  {
    var f := Frame(93, 300, 45, 10, 15, 80);
    assert PlotWidth(f) == 8;
    XEndpoints(f, 0, 1000);
  }
}
