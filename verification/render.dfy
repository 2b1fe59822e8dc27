/**
 * The geometry `drawBackground` and `drawChart` hand to the canvas
 * (tinyChart.js), as values: grid lines, the selector band, series paths,
 * the zero line, hover highlights and markers, axis labels and the legend.
 * Canvas calls, fonts and styles are not modelled; text widths come in as
 * numbers.
 */
module Render {

  import opened Wrappers
  import opened JsNumber
  import opened Decimal
  import opened Series
  import opened Mapping
  import opened Selection

  /** `linesY` and `linesX`: grid lines across and along the plot. */
  const LINES_Y: int := 4
  const LINES_X: int := 7

  // ---------------------------------------------------------------- colours

  /** The built-in colours that follow the user's `options.colors`. */
  const PALETTE: seq<string> := [
    "#00458B", "#FB8122", "#3EB650", "#5626C4", "#2CCCC3",
    "#FCC133", "#E5BACE", "#8DA242", "#7DA2A9"]

  const FALLBACK_COLOR: string := "#000"

  /** `[...options.colors, ...palette]` */
  function Colors(user: seq<string>): seq<string>
  {
    user + PALETTE
  }

  /** `colors[i] || '#000'`: a missing or empty entry falls back to black. */
  function ColorOf(colors: seq<string>, i: nat): string
  {
    if i < |colors| && colors[i] != "" then colors[i] else FALLBACK_COLOR
  }

  /**
   * Series take the user's colours first, then the palette in order; past
   * the palette every series is black: the lookup never wraps around.
   */
  lemma SeriesColor(user: seq<string>, i: nat)
    ensures i < |user| && user[i] != "" ==> ColorOf(Colors(user), i) == user[i]
    ensures i < |user| && user[i] == "" ==> ColorOf(Colors(user), i) == FALLBACK_COLOR
    ensures |user| <= i < |user| + |PALETTE| ==> ColorOf(Colors(user), i) == PALETTE[i - |user|]
    ensures |user| + |PALETTE| <= i ==> ColorOf(Colors(user), i) == FALLBACK_COLOR
  {
  }

  /** The palette gives nine series nine different colours, none of them the fallback. */
  lemma PaletteDistinct()
    ensures forall a, b :: 0 <= a < b < |PALETTE| ==> PALETTE[a] != PALETTE[b]
    ensures FALLBACK_COLOR !in PALETTE
  {
  }

  // ---------------------------------------------------------- labels, symbols

  /** `'input ' + (i + 1)` */
  function DefaultLabel(i: nat): string
  {
    "input " + NatToString(i + 1)
  }

  /** `labels[i] || 'input ' + (i + 1)` */
  function LabelOf(labels: seq<string>, i: nat): string
  {
    if i < |labels| && labels[i] != "" then labels[i] else DefaultLabel(i)
  }

  /** `symbols[i] || ''` */
  function SymbolOf(symbols: seq<string>, i: nat): string
  {
    if i < |symbols| then symbols[i] else ""
  }

  /** Unlabelled series get pairwise different names, numbered from 1. */
  lemma DefaultLabelsDistinct(i: nat, j: nat)
    ensures IsDigits(DefaultLabel(i)[6..])
    ensures DigitsValue(DefaultLabel(i)[6..]) == i + 1
    ensures DefaultLabel(i) == DefaultLabel(j) <==> i == j
  {
    DefaultLabelNumber(i);
    DefaultLabelNumber(j);
    if DefaultLabel(i) == DefaultLabel(j) {
      assert NatToString(i + 1) == NatToString(j + 1);
    }
  }

  lemma DefaultLabelNumber(i: nat)
    ensures DefaultLabel(i)[6..] == NatToString(i + 1)
    ensures DigitsValue(NatToString(i + 1)) == i + 1
  {
    NatToStringRoundTrip(i + 1);
  }

  // ------------------------------------------------------------------ grid

  /** A point on the canvas. */
  datatype Pt = Pt(x: real, y: real)

  /** A straight stroke and its `lineWidth`. */
  datatype Segment = Segment(from: Pt, to: Pt, width: real)

  /** A `fillRect(x, y, w, h)`. */
  datatype Rect = Rect(x: real, y: real, w: real, h: real)

  const FAINT: real := 0.2
  const STRONG: real := 1.0

  /** `stepX = (ctxWidth - MARGIN_LEFT - MARGIN_RIGHT) / (linesX - 1)` */
  function StepX(f: Frame): real
  {
    (f.width - f.left - f.right) as real / (LINES_X - 1) as real
  }

  /** `stepY = (ctxHeight - MARGIN_TOP - MARGIN_BOTTOM) / (linesY - 1)` */
  function StepY(f: Frame): real
  {
    PlotHeight(f) as real / (LINES_Y - 1) as real
  }

  /** Horizontal line `i`: from 7 px left of the plot to its right edge, faint except the last. */
  function HorizontalLine(f: Frame, i: nat): Segment
  {
    var y := f.top as real + Mul(StepY(f), i as real);
    Segment(Pt((f.left - 7) as real, y), Pt((f.width - f.right) as real, y),
            if i < LINES_Y - 1 then FAINT else STRONG)
  }

  /** Vertical line `i`: across the plot height, strong only for the first. */
  function VerticalLine(f: Frame, i: nat): Segment
  {
    var x := f.left as real + Mul(StepX(f), i as real);
    Segment(Pt(x, f.top as real), Pt(x, (f.height - f.bottom) as real),
            if i > 0 then FAINT else STRONG)
  }

  function HorizontalLines(f: Frame): (g: seq<Segment>)
    ensures |g| == LINES_Y
    ensures forall i :: 0 <= i < |g| ==> g[i] == HorizontalLine(f, i)
  {
    seq(LINES_Y, i requires 0 <= i => HorizontalLine(f, i))
  }

  function VerticalLines(f: Frame): (g: seq<Segment>)
    ensures |g| == LINES_X
    ensures forall i :: 0 <= i < |g| ==> g[i] == VerticalLine(f, i)
  {
    seq(LINES_X, i requires 0 <= i => VerticalLine(f, i))
  }

  /**
   * The horizontal lines run from the top of the plot down to its bottom edge
   * in equal steps; only the bottom one is strong.
   */
  lemma HorizontalGrid(f: Frame)
    ensures HorizontalLines(f)[0].from.y == f.top as real
    ensures HorizontalLines(f)[LINES_Y - 1].from.y == (f.height - f.bottom) as real
    ensures forall i :: 0 <= i < LINES_Y ==> HorizontalLines(f)[i].from.y == HorizontalLines(f)[i].to.y
    ensures forall i :: 0 <= i < LINES_Y ==> (HorizontalLines(f)[i].width == STRONG <==> i == LINES_Y - 1)
    ensures forall i :: 0 < i < LINES_Y ==> HorizontalLines(f)[i].from.y - HorizontalLines(f)[i - 1].from.y == StepY(f)
  {
    forall i | 0 < i < LINES_Y
      ensures HorizontalLines(f)[i].from.y - HorizontalLines(f)[i - 1].from.y == StepY(f)
    {
      MulSteps(StepY(f), i);
    }
  }

  /**
   * The vertical lines run from the left margin to the right margin in equal
   * steps; only the leftmost one is strong.
   */
  lemma VerticalGrid(f: Frame)
    ensures VerticalLines(f)[0].from.x == f.left as real
    ensures VerticalLines(f)[LINES_X - 1].from.x == (f.width - f.right) as real
    ensures forall i :: 0 <= i < LINES_X ==> VerticalLines(f)[i].from.x == VerticalLines(f)[i].to.x
    ensures forall i :: 0 <= i < LINES_X ==> (VerticalLines(f)[i].width == STRONG <==> i == 0)
    ensures forall i :: 0 < i < LINES_X ==> VerticalLines(f)[i].from.x - VerticalLines(f)[i - 1].from.x == StepX(f)
  {
    forall i | 0 < i < LINES_X
      ensures VerticalLines(f)[i].from.x - VerticalLines(f)[i - 1].from.x == StepX(f)
    {
      MulSteps(StepX(f), i);
    }
  }

  // -------------------------------------------------------------- selector

  /** `drawSelector`: from `recX1`, `recX2 - recX1` wide, over the plot height. */
  function SelectorRect(f: Frame, recX1: real, recX2: real): Rect
  {
    Rect(recX1, f.top as real, recX2 - recX1, (f.height - f.bottom - f.top) as real)
  }

  /** The shaded band covers exactly the X range the filter keeps, over the whole plot height. */
  lemma SelectorMatchesFilterBand(f: Frame, recX1: real, recX2: real)
    ensures var r := SelectorRect(f, recX1, recX2);
            var b := Bounds(recX1, recX2);
            && (if r.w >= 0.0 then (r.x, r.x + r.w) else (r.x + r.w, r.x)) == b
            && r.y == f.top as real && r.y + r.h == (f.height - f.bottom) as real
  {
  }

  // ---------------------------------------------------------------- paths

  /** A path vertex in whole pixels. */
  datatype Pixel = Pixel(x: int, y: int)

  /** Every point has a value for series `i`. */
  predicate HasSeries(m: seq<MappedPoint>, i: nat)
  {
    forall j :: 0 <= j < |m| ==> i < |m[j].ys|
  }

  function Vertex(p: MappedPoint, i: nat): Pixel
    requires i < |p.ys|
  {
    Pixel(p.x, p.ys[i])
  }

  /** `chartTypes[i] === 1`: the series is drawn as steps. */
  predicate Stepped(chartTypes: seq<int>, i: nat)
  {
    i < |chartTypes| && chartTypes[i] == 1
  }

  /** The default case of the path loop from point `j` on: `lineTo(x_j, y_j)`. */
  function LineFrom(m: seq<MappedPoint>, i: nat, j: nat): seq<Pixel>
    requires HasSeries(m, i) && j <= |m|
    decreases |m| - j
  {
    if j == |m| then [] else [Vertex(m[j], i)] + LineFrom(m, i, j + 1)
  }

  /** Case 1 of the path loop from point `j >= 1` on: `lineTo(x_j, y_{j-1})`, then `lineTo(x_j, y_j)`. */
  function StepFrom(m: seq<MappedPoint>, i: nat, j: nat): seq<Pixel>
    requires HasSeries(m, i) && 1 <= j <= |m|
    decreases |m| - j
  {
    if j == |m| then []
    else [Pixel(m[j].x, m[j - 1].ys[i]), Vertex(m[j], i)] + StepFrom(m, i, j + 1)
  }

  /** The path of series `i`: `moveTo` the first point, then the loop over the others. */
  function SeriesPath(m: seq<MappedPoint>, chartTypes: seq<int>, i: nat): seq<Pixel>
    requires 1 <= |m| && HasSeries(m, i)
  {
    [Vertex(m[0], i)] + (if Stepped(chartTypes, i) then StepFrom(m, i, 1) else LineFrom(m, i, 1))
  }

  lemma {:induction false} LineFromShape(m: seq<MappedPoint>, i: nat, j: nat)
    requires HasSeries(m, i) && j <= |m|
    ensures |LineFrom(m, i, j)| == |m| - j
    ensures forall k :: 0 <= k < |m| - j ==> LineFrom(m, i, j)[k] == Vertex(m[j + k], i)
    decreases |m| - j
  {
    if j < |m| {
      LineFromShape(m, i, j + 1);
      var rest := LineFrom(m, i, j + 1);
      var s := LineFrom(m, i, j);
      assert s == [Vertex(m[j], i)] + rest;
      forall k | 0 < k < |m| - j
        ensures s[k] == Vertex(m[j + k], i)
      {
        assert s[k] == rest[k - 1];
      }
    }
  }

  lemma {:induction false} StepFromShape(m: seq<MappedPoint>, i: nat, j: nat)
    requires HasSeries(m, i) && 1 <= j <= |m|
    ensures |StepFrom(m, i, j)| == 2 * (|m| - j)
    ensures forall k :: 0 <= k < |m| - j ==>
              StepFrom(m, i, j)[2 * k] == Pixel(m[j + k].x, m[j + k - 1].ys[i]) &&
              StepFrom(m, i, j)[2 * k + 1] == Vertex(m[j + k], i)
    decreases |m| - j
  {
    if j < |m| {
      StepFromShape(m, i, j + 1);
      var rest := StepFrom(m, i, j + 1);
      var s := StepFrom(m, i, j);
      forall k | 0 < k < |m| - j
        ensures s[2 * k] == Pixel(m[j + k].x, m[j + k - 1].ys[i])
        ensures s[2 * k + 1] == Vertex(m[j + k], i)
      {
        assert s[2 * k] == rest[2 * (k - 1)];
        assert s[2 * k + 1] == rest[2 * (k - 1) + 1];
      }
    }
  }

  /** A plain series is the polyline through its points in order: n vertices, ending at the last point. */
  lemma LinePath(m: seq<MappedPoint>, chartTypes: seq<int>, i: nat)
    requires 1 <= |m| && HasSeries(m, i) && !Stepped(chartTypes, i)
    ensures |SeriesPath(m, chartTypes, i)| == |m|
    ensures forall k :: 0 <= k < |m| ==> SeriesPath(m, chartTypes, i)[k] == Vertex(m[k], i)
  {
    LineFromShape(m, i, 1);
  }

  /**
   * A stepped series has 2n - 1 vertices: every data vertex sits at an even
   * index, and from each point the path first runs level to the next point's
   * X, then straight up or down to its value.
   */
  lemma StepPath(m: seq<MappedPoint>, chartTypes: seq<int>, i: nat)
    requires 1 <= |m| && HasSeries(m, i) && Stepped(chartTypes, i)
    ensures |SeriesPath(m, chartTypes, i)| == 2 * |m| - 1
    ensures forall k :: 0 <= k < |m| ==> SeriesPath(m, chartTypes, i)[2 * k] == Vertex(m[k], i)
    ensures forall k :: 0 <= k < |m| - 1 ==>
              SeriesPath(m, chartTypes, i)[2 * k + 1] == Pixel(m[k + 1].x, m[k].ys[i])
  {
    StepFromShape(m, i, 1);
    var p := SeriesPath(m, chartTypes, i);
    var s := StepFrom(m, i, 1);
    assert p == [Vertex(m[0], i)] + s;
    forall k | 0 < k < |m|
      ensures p[2 * k] == Vertex(m[k], i)
    {
      var q := k - 1;
      assert 2 * k - 1 == 2 * q + 1;
      assert p[2 * k] == s[2 * q + 1];
      assert s[2 * q + 1] == Vertex(m[1 + q], i);
    }
    forall k | 0 <= k < |m| - 1
      ensures p[2 * k + 1] == Pixel(m[k + 1].x, m[k].ys[i])
    {
      assert p[2 * k + 1] == s[2 * k];
      assert s[2 * k] == Pixel(m[1 + k].x, m[1 + k - 1].ys[i]);
    }
  }

  // ------------------------------------------------------------ zero line

  /** `if (zeroY < ctxHeight - MARGIN_BOTTOM)`: a dashed line at height `z`, inset by 1 px. */
  function ZeroLineAt(f: Frame, z: int): Option<Segment>
  {
    if z < f.height - f.bottom
    then Some(Segment(Pt((f.left + 1) as real, z as real), Pt((f.width - f.right - 1) as real, z as real), STRONG))
    else None
  }

  /** The zero line as written: at `zeroY = calcY(0)`, whose `~~` wraps at 2^31. */
  function ZeroLine(f: Frame, r: Option<Range>): Option<Segment>
  {
    ZeroLineAt(f, CalcY(f, r, 0.0))
  }

  /**
   * The height `calcY(0)` is meant to have: the pixel offset of zero above
   * `minY` truncated toward zero without the 32-bit wrap. No range, or a flat
   * one, still puts it on the bottom edge.
   */
  function ZeroYIntended(f: Frame, r: Option<Range>): int
  {
    if r.None? || r.value.lo == r.value.hi then f.height - f.bottom
    else f.height - Trunc(Mul(0.0 - r.value.lo, PlotHeight(f) as real) / (r.value.hi - r.value.lo)) - f.bottom
  }

  /** The zero line the guard is meant to draw. */
  function ZeroLineIntended(f: Frame, r: Option<Range>): Option<Segment>
  {
    ZeroLineAt(f, ZeroYIntended(f, r))
  }

  /** With no range, or a flat one, `calcY(0)` is the bottom edge and there is no zero line. */
  lemma ZeroLineNeedsRange(f: Frame, r: Option<Range>)
    requires r.None? || r.value.lo == r.value.hi
    ensures ZeroLine(f, r) == None
  {
  }

  /** When all values are nonnegative the zero line is never drawn. */
  lemma ZeroLineHiddenWhenNonNegative(f: Frame, g: Range)
    requires 0.0 <= g.lo < g.hi && 0 <= PlotHeight(f)
    requires -(TWO_31 as real) < Mul(0.0 - g.lo, PlotHeight(f) as real) / (g.hi - g.lo)
    ensures ZeroLine(f, Some(g)) == None
  {
    ScaleNonPositive(0.0 - g.lo, PlotHeight(f) as real, g.hi - g.lo);
  }

  /**
   * With a negative minimum the line is drawn exactly when zero lies at least
   * one whole pixel above the bottom edge.
   */
  lemma ZeroLineShownIff(f: Frame, g: Range)
    requires g.lo < 0.0 && g.lo < g.hi && 0 <= PlotHeight(f)
    requires Mul(0.0 - g.lo, PlotHeight(f) as real) / (g.hi - g.lo) < TWO_31 as real
    ensures ZeroLine(f, Some(g)).Some? <==> Mul(0.0 - g.lo, PlotHeight(f) as real) >= g.hi - g.lo
  {
    ScaleAtLeastOne(0.0 - g.lo, PlotHeight(f) as real, g.hi - g.lo);
  }

  /**
   * The guard only tests the bottom edge: when every value is negative, zero
   * maps at or above the top of the plot and the line is still drawn there.
   */
  lemma ZeroLineAboveTop(f: Frame, g: Range)
    requires g.lo < g.hi < 0.0 && 1 <= PlotHeight(f) < TWO_31
    requires Mul(0.0 - g.lo, PlotHeight(f) as real) / (g.hi - g.lo) < TWO_31 as real
    ensures ZeroLine(f, Some(g)).Some?
    ensures ZeroLine(f, Some(g)).value.from.y <= f.top as real
  {
    var p := PlotHeight(f);
    var d := g.hi - g.lo;
    ScaleMonotone(d, 0.0 - g.lo, p as real, d);
    ScaleFull(p, d);
  }

  /**
   * Values around 2^32 wrap the zero offset: all-positive data from
   * 4294967196 to 4294967401 on a 400 by 300 canvas gets a zero line across
   * the middle of the plot, at y = 120, where none is meant to be.
   */
  lemma ZeroLineWraps()
    ensures ZeroLine(Frame(400, 300, 55, 10, 15, 80), Some(Range(4294967196.0, 4294967401.0)))
            == Some(Segment(Pt(56.0, 120.0), Pt(389.0, 120.0), STRONG))
    ensures ZeroLineIntended(Frame(400, 300, 55, 10, 15, 80), Some(Range(4294967196.0, 4294967401.0))) == None
  {
    var f := Frame(400, 300, 55, 10, 15, 80);
    var g := Range(4294967196.0, 4294967401.0);
    assert PlotHeight(f) == 205;
    assert Mul(0.0 - g.lo, 205.0) / (g.hi - g.lo) == -4294967196.0;
    TruncOfInt(-4294967196);
    assert Wrap32(-4294967196) == 100;
    assert CalcY(f, Some(g), 0.0) == 120;
    assert ZeroYIntended(f, Some(g)) == 300 + 4294967196 - 80;
  }

  /**
   * On a plot of zero or negative height, data with a negative minimum never
   * gets a zero line: zero maps on or below the bottom edge.
   */
  lemma ZeroLineHiddenOnShortPlot(f: Frame, g: Range)
    requires g.lo < 0.0 && g.lo < g.hi && PlotHeight(f) <= 0
    requires -(TWO_31 as real) < Mul(0.0 - g.lo, PlotHeight(f) as real) / (g.hi - g.lo)
    ensures ZeroLine(f, Some(g)) == None
  {
    var n := Mul(0.0 - g.lo, PlotHeight(f) as real);
    assert n <= 0.0 by {
      assert (0.0 - g.lo) * (0.0 - PlotHeight(f) as real) >= 0.0;
    }
    assert n / (g.hi - g.lo) <= 0.0;
    TruncDivSmall(n, g.hi - g.lo);
    TruncBounds(n / (g.hi - g.lo));
  }

  /**
   * A canvas shorter than its margins (a height option of 80 px) has a
   * negative plot height, and there nonnegative data does get a zero line,
   * as written and as intended.
   */
  lemma ZeroLineOnShortCanvas()
    ensures ZeroLine(Frame(400, 80, 55, 10, 15, 80), Some(Range(1.0, 2.0)))
            == Some(Segment(Pt(56.0, -15.0), Pt(389.0, -15.0), STRONG))
    ensures ZeroLineIntended(Frame(400, 80, 55, 10, 15, 80), Some(Range(1.0, 2.0))).Some?
  {
    var f := Frame(400, 80, 55, 10, 15, 80);
    var g := Range(1.0, 2.0);
    assert PlotHeight(f) == -15;
    assert Mul(0.0 - g.lo, -15.0) / (g.hi - g.lo) == 15.0;
    TruncOfInt(15);
    assert CalcY(f, Some(g), 0.0) == -15;
    assert ZeroYIntended(f, Some(g)) == -15;
  }

  /** As intended, nonnegative data on a plot of nonnegative height never gets a zero line, however large the values. */
  lemma ZeroLineIntendedHidden(f: Frame, g: Range)
    requires 0.0 <= g.lo < g.hi && 0 <= PlotHeight(f)
    ensures ZeroLineIntended(f, Some(g)) == None
  {
    var a := 0.0 - g.lo;
    var p := PlotHeight(f) as real;
    assert Mul(a, p) <= 0.0 by {
      assert (-a) * p >= 0.0;
    }
    TruncBounds(Mul(a, p) / (g.hi - g.lo));
  }

  /** While the zero offset stays inside the 32-bit range, the code as written draws the intended line. */
  lemma ZeroLineAgreesInRange(f: Frame, g: Range)
    requires g.lo < g.hi
    requires -(TWO_31 as real) < Mul(0.0 - g.lo, PlotHeight(f) as real) / (g.hi - g.lo) < TWO_31 as real
    ensures ZeroLine(f, Some(g)) == ZeroLineIntended(f, Some(g))
  {
    TruncDivSmall(Mul(0.0 - g.lo, PlotHeight(f) as real), g.hi - g.lo);
  }

  // ---------------------------------------------------- hover highlights

  /** The thick vertical bar behind a selected point, 1 px inside the plot. */
  function Highlight(f: Frame, p: MappedPoint): Segment
  {
    Segment(Pt(p.x as real, (f.top + 1) as real), Pt(p.x as real, (f.height - f.bottom - 1) as real), 3.0)
  }

  /** One bar per selected point, in point order. */
  function Highlights(f: Frame, m: seq<MappedPoint>): seq<Segment>
  {
    if m == [] then []
    else (if m[0].selected then [Highlight(f, m[0])] else []) + Highlights(f, m[1..])
  }

  /** The bars are exactly those of the selected points. */
  lemma {:induction false} HighlightsOfSelected(f: Frame, m: seq<MappedPoint>, s: Segment)
    ensures s in Highlights(f, m) <==> exists j :: 0 <= j < |m| && m[j].selected && s == Highlight(f, m[j])
  {
    if m != [] {
      HighlightsOfSelected(f, m[1..], s);
      if s in Highlights(f, m[1..]) {
        var j :| 0 <= j < |m[1..]| && m[1..][j].selected && s == Highlight(f, m[1..][j]);
        assert m[j + 1] == m[1..][j];
      }
      if exists j :: 0 <= j < |m| && m[j].selected && s == Highlight(f, m[j]) {
        var j :| 0 <= j < |m| && m[j].selected && s == Highlight(f, m[j]);
        if j > 0 {
          assert m[1..][j - 1] == m[j];
        }
      }
    }
  }

  /** `arc(x, y, isSelected ? 6 : 4, ...)` */
  function MarkerRadius(p: MappedPoint): (r: int)
    ensures r == 6 || r == 4
    ensures r == 6 <==> p.selected
  {
    if p.selected then 6 else 4
  }

  /**
   * Markers and bars agree: after `calcPoints` a point gets the large marker
   * exactly when the pointer is within 10 px of it, and exactly when a
   * highlight bar is drawn at its X.
   */
  lemma LargeMarkerOnHighlight(f: Frame, delimiters: seq<real>, pts: seq<RawPoint>, pointerX: int, j: nat)
    requires 1 <= |pts| && j < |pts|
    ensures var m := CalcPoints(f, delimiters, pts, pointerX);
            && (MarkerRadius(m[j]) == 6 <==> Hovered(pointerX, m[j].x))
            && (MarkerRadius(m[j]) == 6 <==> Highlight(f, m[j]) in Highlights(f, m))
  {
    var m := CalcPoints(f, delimiters, pts, pointerX);
    HighlightsOfSelected(f, m, Highlight(f, m[j]));
    if Highlight(f, m[j]) in Highlights(f, m) {
      var k :| 0 <= k < |m| && m[k].selected && Highlight(f, m[j]) == Highlight(f, m[k]);
      assert m[k].x as real == m[j].x as real;
    }
  }

  // ------------------------------------------------------- Y-axis labels

  /**
   * The value of Y label `i`: `~~(minY + (maxY - minY) / steps * i)`. With
   * `minY` undefined the sum is NaN and `~~` gives 0. tinyChart divides by
   * `linesY - 1`, demo.js by `linesY`.
   */
  function YLabelValue(r: Option<Range>, steps: nat, i: nat): int
    requires 0 < steps
  {
    if r.None? then 0 else ToInt32(YLabelBase(r.value, steps, i))
  }

  /** The number label `i` truncates. */
  function YLabelBase(g: Range, steps: nat, i: nat): real
    requires 0 < steps
  {
    g.lo + Mul((g.hi - g.lo) / steps as real, i as real)
  }

  /** The drawn label: the number followed by `symbols[0] || ''`. */
  function YLabelText(r: Option<Range>, symbols: seq<string>, i: nat): string
  {
    IntToString(YLabelValue(r, LINES_Y - 1, i)) + SymbolOf(symbols, 0)
  }

  /** The label's baseline: `ctxHeight - MARGIN_BOTTOM - stepY * i`. */
  function YLabelY(f: Frame, i: nat): real
  {
    (f.height - f.bottom) as real - Mul(StepY(f), i as real)
  }

  /**
   * With three steps the labels run from `~~minY` on the bottom grid line to
   * `~~maxY` on the top one, each label on its own grid line.
   */
  lemma YLabelEnds(f: Frame, g: Range)
    requires -(TWO_31 as real) < g.lo <= g.hi < TWO_31 as real
    ensures YLabelValue(Some(g), LINES_Y - 1, 0) == Trunc(g.lo)
    ensures YLabelValue(Some(g), LINES_Y - 1, LINES_Y - 1) == Trunc(g.hi)
    ensures forall i :: 0 <= i < LINES_Y ==> YLabelY(f, i) == HorizontalLine(f, LINES_Y - 1 - i).from.y
  {
    assert YLabelBase(g, 3, 0) == g.lo;
    assert YLabelBase(g, 3, 3) == g.hi;
    ToInt32Small(g.lo);
    ToInt32Small(g.hi);
    forall i | 0 <= i < LINES_Y
      ensures YLabelY(f, i) == HorizontalLine(f, LINES_Y - 1 - i).from.y
    {
      assert Mul(StepY(f), i as real) + Mul(StepY(f), (3 - i) as real) == PlotHeight(f) as real;
    }
  }

  /** Label values never decrease up the axis. */
  lemma YLabelsNondecreasing(g: Range, steps: nat, i: nat, j: nat)
    requires 0 < steps && g.lo <= g.hi && i <= j <= steps
    requires -(TWO_31 as real) < g.lo && g.hi < TWO_31 as real
    ensures YLabelValue(Some(g), steps, i) <= YLabelValue(Some(g), steps, j)
  {
    var q := (g.hi - g.lo) / steps as real;
    MulMonotone(q, i as real, j as real);
    MulMonotone(q, j as real, steps as real);
    MulMonotone(q, 0.0, i as real);
    assert Mul(q, steps as real) == g.hi - g.lo;
    var a := YLabelBase(g, steps, i);
    var b := YLabelBase(g, steps, j);
    ToInt32Small(a);
    ToInt32Small(b);
    TruncMonotone(a, b);
  }

  /** The label text starts with the decimal form of its value. */
  lemma YLabelTextReads(r: Option<Range>, symbols: seq<string>, i: nat)
    ensures var v := YLabelValue(r, LINES_Y - 1, i);
            var n := |IntToString(v)|;
            n <= |YLabelText(r, symbols, i)| && ParseInt(YLabelText(r, symbols, i)[..n]) == v
  {
    var v := YLabelValue(r, LINES_Y - 1, i);
    assert YLabelText(r, symbols, i)[..|IntToString(v)|] == IntToString(v);
    IntToStringRoundTrip(v);
  }

  // ------------------------------------------------------- X-axis labels

  /** `stepXValue * i` with `stepXValue = (t_last - t_first) / (linesX - 1)`. */
  function XLabelOffset(t0: int, tn: int, i: nat): real
  {
    Mul((tn - t0) as real / (LINES_X - 1) as real, i as real)
  }

  /** As written: `points[0].time + ~~(stepXValue * i)`, with `~~` wrapping at 2^31. */
  function XLabelTimeAsWritten(t0: int, tn: int, i: nat): int
  {
    t0 + ToInt32(XLabelOffset(t0, tn, i))
  }

  /** The timestamp label `i` is meant to show: the offset truncated without wrapping. */
  function XLabelTime(t0: int, tn: int, i: nat): int
  {
    t0 + Trunc(XLabelOffset(t0, tn, i))
  }

  /**
   * A span of 2^31 ms (about 24.9 days) is enough for the last label to wrap
   * to a date 24.9 days before the first point instead of the last point.
   */
  lemma XLabelWraps()
    ensures XLabelTimeAsWritten(0, TWO_31, 6) == -TWO_31
    ensures XLabelTime(0, TWO_31, 6) == TWO_31
  {
    assert XLabelOffset(0, TWO_31, 6) == TWO_31 as real;
    TruncOfInt(TWO_31);
  }

  /** The labels start at the first point's time and end at the last point's. */
  lemma XLabelEnds(t0: int, tn: int)
    ensures XLabelTime(t0, tn, 0) == t0
    ensures XLabelTime(t0, tn, LINES_X - 1) == tn
  {
    assert XLabelOffset(t0, tn, 0) == 0.0;
    assert XLabelOffset(t0, tn, 6) == (tn - t0) as real;
    TruncOfInt(0);
    TruncOfInt(tn - t0);
  }

  /** For time-ordered points the labels never go back in time. */
  lemma XLabelsNondecreasing(t0: int, tn: int, i: nat, j: nat)
    requires t0 <= tn && i <= j
    ensures XLabelTime(t0, tn, i) <= XLabelTime(t0, tn, j)
  {
    MulMonotone((tn - t0) as real / 6.0, i as real, j as real);
    TruncMonotone(XLabelOffset(t0, tn, i), XLabelOffset(t0, tn, j));
  }

  /** Under 2^31 ms the code as written and the intended labels agree. */
  lemma XLabelAgreesInRange(t0: int, tn: int, i: nat)
    requires 0 <= tn - t0 < TWO_31 && i < LINES_X
    ensures XLabelTimeAsWritten(t0, tn, i) == XLabelTime(t0, tn, i)
  {
    var q := (tn - t0) as real / 6.0;
    MulMonotone(q, 0.0, i as real);
    MulMonotone(q, i as real, 6.0);
    assert Mul(q, 6.0) == (tn - t0) as real;
    ToInt32Small(XLabelOffset(t0, tn, i));
  }

  /**
   * The anchor of X label `i`: 35 px left of vertical grid line `i`
   * (`VerticalLines(f)[i].from.x`), 60 px below the plot's bottom edge.
   */
  function XLabelAnchor(f: Frame, i: nat): Pt
  {
    Pt((f.left - 35) as real + Mul(StepX(f), i as real), (f.height - f.bottom + 60) as real)
  }

  // -------------------------------------------------------------- legend

  /** The legend's `line`: room for the colour swatch before each label. */
  const LEGEND_LINE: real := 50.0

  /** The legend width up to entry `i`: the sum of `width + line` over the first `i` labels. */
  function LegendPrefix(widths: seq<real>, i: nat): real
    requires i <= |widths|
  {
    if i == 0 then 0.0 else LegendPrefix(widths, i - 1) + widths[i - 1] + LEGEND_LINE
  }

  /** `boxSize` */
  function BoxSize(widths: seq<real>): real
  {
    LegendPrefix(widths, |widths|)
  }

  /** `textX` after step `i`: `line`, then `+ width(label[i-1]) + line` per step. */
  function TextOffset(widths: seq<real>, i: nat): real
    requires i < |widths|
  {
    if i == 0 then LEGEND_LINE else TextOffset(widths, i - 1) + widths[i - 1] + LEGEND_LINE
  }

  /** `boxX = (ctxWidth - boxSize) / 2` */
  function BoxX(f: Frame, widths: seq<real>): real
  {
    (f.width as real - BoxSize(widths)) / 2.0
  }

  /** One legend entry: the label and where it is written, the colour swatch and the dot on it. */
  datatype LegendEntry = LegendEntry(name: string, text: Pt, swatch: Segment, dot: Pt, color: string)

  /** Entry `i`, with `widths[i]` the measured width of its label. */
  function LegendEntryAt(f: Frame, widths: seq<real>, labels: seq<string>, colors: seq<string>, i: nat): LegendEntry
    requires i < |widths|
  {
    var x := BoxX(f, widths) + TextOffset(widths, i);
    var y := (f.height - 8) as real;
    LegendEntry(
      LabelOf(labels, i),
      Pt(x, (f.height - 4) as real),
      Segment(Pt(x - LEGEND_LINE + 10.0, y), Pt(x - 5.0, y), 3.0),
      Pt(x - LEGEND_LINE + 10.0 + (LEGEND_LINE - 10.0 - 5.0) / 2.0, y),
      ColorOf(colors, i))
  }

  lemma {:induction false} TextOffsetIsPrefix(widths: seq<real>, i: nat)
    requires i < |widths|
    ensures TextOffset(widths, i) == LegendPrefix(widths, i) + LEGEND_LINE
  {
    if i > 0 {
      TextOffsetIsPrefix(widths, i - 1);
    }
  }

  /**
   * The legend is centred, its last label ends exactly at the box's right
   * end, consecutive entries keep a 10 px gap between a label and the next
   * swatch, and each dot sits in the middle of its swatch.
   */
  lemma LegendLayout(f: Frame, widths: seq<real>, labels: seq<string>, colors: seq<string>)
    requires 1 <= |widths|
    ensures BoxX(f, widths) == f.width as real - (BoxX(f, widths) + BoxSize(widths))
    ensures var n := |widths|;
            LegendEntryAt(f, widths, labels, colors, n - 1).text.x + widths[n - 1] == BoxX(f, widths) + BoxSize(widths)
    ensures forall i :: 0 <= i < |widths| - 1 ==>
              LegendEntryAt(f, widths, labels, colors, i).text.x + widths[i] + 10.0
                == LegendEntryAt(f, widths, labels, colors, i + 1).swatch.from.x
    ensures forall i :: 0 <= i < |widths| ==>
              var e := LegendEntryAt(f, widths, labels, colors, i);
              e.dot.x == (e.swatch.from.x + e.swatch.to.x) / 2.0 && e.dot.y == e.swatch.from.y
  {
    TextOffsetIsPrefix(widths, |widths| - 1);
  }

  /**
   * Each legend entry names its series as the info box does and uses the
   * series colour; series left unlabelled get entries with different names.
   */
  lemma LegendNamesSeries(f: Frame, widths: seq<real>, labels: seq<string>, colors: seq<string>, i: nat, j: nat)
    requires i < j < |widths|
    ensures LegendEntryAt(f, widths, labels, colors, i).name == LabelOf(labels, i)
    ensures LegendEntryAt(f, widths, labels, colors, i).color == ColorOf(colors, i)
    ensures (i >= |labels| || labels[i] == "") && (j >= |labels| || labels[j] == "") ==>
              LegendEntryAt(f, widths, labels, colors, i).name != LegendEntryAt(f, widths, labels, colors, j).name
  {
    DefaultLabelsDistinct(i, j);
  }
}
