/**
 * The earlier `Chart` of demo.js: the same drag-to-zoom chart with fixed
 * margins, no hover, no delimiters and no legend or info box. Its handlers
 * differ from tinyChart's in when they zoom and what they do with a press
 * that has no touch point.
 */
module Demo {

  import opened Wrappers
  import opened JsNumber
  import opened Decimal
  import opened Series
  import opened Mapping
  import opened Selection
  import opened Render
  import Chart

  const DEFAULT_HEIGHT: int := 250
  const MARGIN_LEFT: int := 55
  const MARGIN_RIGHT: int := 10
  const MARGIN_TOP: int := 15
  const MARGIN_BOTTOM: int := 60

  /** The demo's own colours, used only when no `colors` option is given. */
  const DEMO_COLORS: seq<string> := ["#ffbf96", "#4d50ab", "#47915a"]

  /** The `width`, `height` and `colors` options, and the canvas' left edge read in the constructor. */
  datatype Config = Config(width: Option<int>, height: Option<int>, colors: Option<seq<string>>, rectLeft: real)

  datatype State = State(
    config: Config,
    raw: seq<RawPoint>,
    clientWidth: int,
    frame: Frame,
    points: seq<MappedPoint>,
    pressed: bool,
    zoom: bool,
    recX1: real,
    recX2: real)

  /**
   * `options.colors || [...]`: any given array, even an empty one, replaces
   * the demo colours, and there is no palette behind it.
   */
  function Colors(c: Config): (cs: seq<string>)
    ensures c.colors.Some? ==> cs == c.colors.value
    ensures c.colors.None? ==> cs == DEMO_COLORS
  {
    if c.colors.Some? then c.colors.value else DEMO_COLORS
  }

  /** With no option the first three series get the demo colours and the rest black; an empty option makes all black. */
  lemma DemoSeriesColor(c: Config, i: nat)
    ensures c.colors.None? && i < 3 ==> ColorOf(Colors(c), i) == DEMO_COLORS[i]
    ensures c.colors.None? && 3 <= i ==> ColorOf(Colors(c), i) == FALLBACK_COLOR
    ensures c.colors == Some([]) ==> ColorOf(Colors(c), i) == FALLBACK_COLOR
  {
  }

  /** `setBackgroundSize()` with the demo's fixed margins. */
  function FrameOf(c: Config, clientWidth: int): (f: Frame)
    ensures f.width == Chart.OrElse(c.width, clientWidth) && f.height == Chart.OrElse(c.height, DEFAULT_HEIGHT)
    ensures f.left == MARGIN_LEFT && f.right == MARGIN_RIGHT && f.top == MARGIN_TOP && f.bottom == MARGIN_BOTTOM
  {
    Frame(Chart.OrElse(c.width, clientWidth), Chart.OrElse(c.height, DEFAULT_HEIGHT),
          MARGIN_LEFT, MARGIN_RIGHT, MARGIN_TOP, MARGIN_BOTTOM)
  }

  // ------------------------------------------------------------ calcPoints

  /**
   * The demo's `calcPoints`: X as in tinyChart, Y from the raw values with
   * `minY`/`maxY` over all raw values, and no hover flag.
   */
  function CalcPoints(f: Frame, pts: seq<RawPoint>): (m: seq<MappedPoint>)
    requires 1 <= |pts|
    ensures Points(m) == pts
    ensures forall j :: 0 <= j < |m| ==> |m[j].ys| == |pts[j].values| && !m[j].selected
  {
    var t0 := pts[0].time;
    var tn := pts[|pts| - 1].time;
    var r := Extremes(pts, []);
    seq(|pts|, j requires 0 <= j < |pts| =>
      MappedPoint(pts[j], XOf(f, t0, tn, pts[j].time),
                  seq(|pts[j].values|, i requires 0 <= i < |pts[j].values| => CalcY(f, r, pts[j].values[i])),
                  false))
  }

  /** Each pixel Y the demo computes is `calcY` of the raw value against the raw extremes. */
  lemma DemoY(f: Frame, pts: seq<RawPoint>, j: nat, i: nat)
    requires j < |pts| && i < |pts[j].values|
    ensures CalcPoints(f, pts)[j].ys[i] == CalcY(f, Extremes(pts, []), pts[j].values[i])
  {
  }

  /** Without delimiters, the extremes tinyChart computes are those of the raw values. */
  lemma RawExtremes(pts: seq<RawPoint>)
    requires 1 <= |pts|
    ensures var r := Extremes(pts, []);
            r.Some? ==> forall j, i | 0 <= j < |pts| && 0 <= i < |pts[j].values| ::
                          r.value.lo <= pts[j].values[i] <= r.value.hi
  {
    var r := Extremes(pts, []);
    forall j, i | 0 <= j < |pts| && 0 <= i < |pts[j].values|
      ensures Scaled(pts[j], [], i) == pts[j].values[i]
    {
    }
  }

  /**
   * tinyChart's `calcPoints` with no delimiters places every point exactly
   * where the demo's does; only the hover flag is new.
   */
  lemma SameAsChartWithoutDelimiters(f: Frame, pts: seq<RawPoint>, pointerX: int)
    requires 1 <= |pts|
    ensures var a := Mapping.CalcPoints(f, [], pts, pointerX);
            var b := CalcPoints(f, pts);
            forall j :: 0 <= j < |pts| ==> a[j] == b[j].(selected := Hovered(pointerX, b[j].x))
  {
    var a := Mapping.CalcPoints(f, [], pts, pointerX);
    var b := CalcPoints(f, pts);
    forall j | 0 <= j < |pts|
      ensures a[j] == b[j].(selected := Hovered(pointerX, b[j].x))
    {
      assert a[j].ys == b[j].ys;
    }
  }

  /** For time-ordered points the demo's X never decreases and stays between the insets. */
  lemma DemoXOrdered(f: Frame, pts: seq<RawPoint>)
    requires 1 <= |pts| && TimesNondecreasing(pts)
    requires 0 <= PlotWidth(f) < TWO_31
    ensures forall j, k :: 0 <= j <= k < |pts| ==> CalcPoints(f, pts)[j].x <= CalcPoints(f, pts)[k].x
    ensures forall j :: 0 <= j < |pts| ==> f.left + INSET <= CalcPoints(f, pts)[j].x <= f.width - f.right - INSET
  {
    SameAsChartWithoutDelimiters(f, pts, 0);
    XNondecreasing(f, [], pts, 0);
  }

  /** On a canvas narrower than its margins and insets the demo's X runs the other way. */
  lemma DemoXReversedOnNarrowPlot(f: Frame, pts: seq<RawPoint>)
    requires 1 <= |pts| && TimesNondecreasing(pts)
    requires -TWO_31 < PlotWidth(f) <= 0
    ensures forall j, k :: 0 <= j <= k < |pts| ==> CalcPoints(f, pts)[k].x <= CalcPoints(f, pts)[j].x
    ensures forall j :: 0 <= j < |pts| ==> f.width - f.right - INSET <= CalcPoints(f, pts)[j].x <= f.left + INSET
  {
    SameAsChartWithoutDelimiters(f, pts, 0);
    XNonincreasingOnNarrowPlot(f, [], pts, 0);
  }

  // -------------------------------------------------------------- handlers

  function Source(s: State): seq<RawPoint>
  {
    if s.zoom then Points(s.points) else s.raw
  }

  /** `draw()`: re-read the canvas size and recompute the points. */
  function Draw(s: State): (s': State)
    requires |Source(s)| >= 1
    ensures s'.frame == FrameOf(s.config, s.clientWidth)
    ensures Points(s'.points) == Source(s)
    ensures s' == s.(frame := s'.frame, points := s'.points)
  {
    var f := FrameOf(s.config, s.clientWidth);
    s.(frame := f, points := CalcPoints(f, Source(s)))
  }

  function Init(c: Config, raw: seq<RawPoint>, clientWidth: int): (s: State)
    requires |raw| >= 1
    ensures s.raw == raw && Points(s.points) == raw && !s.pressed && !s.zoom
  {
    Draw(State(c, raw, clientWidth, FrameOf(c, clientWidth), [], false, false, 0.0, 0.0))
  }

  /** `onMouseDown`: press and start the selector at the clamped `~~clientX - rect.left`. */
  function OnMouseDown(s: State, clientX: real): (s': State)
    ensures s'.pressed
    ensures s'.recX1 == s'.recX2 == Chart.Clamp(s.frame, ToInt32(clientX) as real - s.config.rectLeft)
    ensures s' == s.(pressed := true, recX1 := s'.recX1, recX2 := s'.recX2)
    ensures s.frame.left <= s.frame.width - s.frame.right ==>
              s.frame.left as real <= s'.recX1 <= (s.frame.width - s.frame.right) as real
    ensures var x := ToInt32(clientX) as real - s.config.rectLeft;
            s.frame.left as real <= x <= (s.frame.width - s.frame.right) as real ==> s'.recX1 == x
  {
    var x := Chart.Clamp(s.frame, ToInt32(clientX) as real - s.config.rectLeft);
    s.(pressed := true, recX1 := x, recX2 := x)
  }

  /** `onMouseMove`: only while pressed, drag the second edge and redraw. */
  function OnMouseMove(s: State, clientX: real): State
    requires |s.raw| >= 1 && |s.points| >= 1
  {
    if s.pressed
    then Draw(s.(recX2 := Chart.Clamp(s.frame, ToInt32(clientX) as real - s.config.rectLeft)))
    else s
  }

  /** `onMouseUp`: release, zoom in any case, filter to the band and redraw. */
  function OnMouseUp(s: State): State
    requires |s.raw| >= 1 && |s.points| >= 1
  {
    var filtered := FilterPoints(s.points, s.recX1, s.recX2);
    FilterPointsSpec(s.points, s.recX1, s.recX2);
    Draw(s.(pressed := false, zoom := true, points := filtered))
  }

  /** `resetPoints`: the raw points, zoom off, redraw. */
  function Reset(s: State): (s': State)
    requires |s.raw| >= 1
    ensures !s'.zoom && Points(s'.points) == s.raw
  {
    Draw(s.(zoom := false))
  }

  /**
   * One event. `onTouchStart` sets the press before it reads `touches[0]`,
   * so a touch start without touches still leaves the chart pressed;
   * `onTouchMove` reads nothing unless pressed. The pointer's Y is ignored.
   */
  function Step(s: State, e: Chart.Event): State
    requires |s.raw| >= 1 && |s.points| >= 1
  {
    match e
    case MouseDown(x) => OnMouseDown(s, x)
    case MouseMove(x, _) => OnMouseMove(s, x)
    case MouseUp => OnMouseUp(s)
    case TouchStart(ts) => if |ts| == 0 then s.(pressed := true) else OnMouseDown(s.(pressed := true), ts[0].clientX)
    case TouchMove(ts) => if !s.pressed || |ts| == 0 then s else OnMouseMove(s, ts[0].clientX)
    case TouchEnd => OnMouseUp(s)
    case Resize(w) => Draw(s.(clientWidth := w))
    case ResetClick => Reset(s)
  }

  /** The same invariant as tinyChart's, with the demo's mapping. */
  predicate Inv(s: State)
  {
    && |s.raw| >= 1
    && |s.points| >= 1
    && Subseq(Points(s.points), s.raw)
    && (!s.zoom ==> Points(s.points) == s.raw)
    && s.points == CalcPoints(s.frame, Points(s.points))
  }

  function Run(s: State, es: seq<Chart.Event>): (r: State)
    requires Inv(s)
    ensures Inv(r) && r.raw == s.raw && r.config == s.config
    decreases |es|
  {
    if es == [] then s
    else
      StepKeepsInv(s, es[0]);
      Run(Step(s, es[0]), es[1..])
  }

  lemma InitInv(c: Config, raw: seq<RawPoint>, clientWidth: int)
    requires |raw| >= 1
    ensures Inv(Init(c, raw, clientWidth))
  {
    SubseqRefl(raw);
  }

  lemma DrawKeepsInv(s: State)
    requires |s.raw| >= 1 && |Source(s)| >= 1
    requires Subseq(Source(s), s.raw)
    ensures Inv(Draw(s))
  {
    var s' := Draw(s);
    assert |s'.points| == |Source(s)|;
  }

  lemma UpKeepsInv(s: State)
    requires Inv(s)
    ensures Inv(OnMouseUp(s)) && OnMouseUp(s).raw == s.raw && OnMouseUp(s).config == s.config
  {
    var filtered := FilterPoints(s.points, s.recX1, s.recX2);
    FilterPointsSpec(s.points, s.recX1, s.recX2);
    SubseqTrans(Points(filtered), Points(s.points), s.raw);
    DrawKeepsInv(s.(pressed := false, zoom := true, points := filtered));
  }

  lemma StepKeepsInv(s: State, e: Chart.Event)
    requires Inv(s)
    ensures Inv(Step(s, e))
    ensures Step(s, e).raw == s.raw && Step(s, e).config == s.config
  {
    match e {
      case MouseDown(x) =>
        DownKeepsInv(s, x);
      case MouseMove(x, _) =>
        MoveKeepsInv(s, x);
      case MouseUp =>
        UpKeepsInv(s);
      case TouchStart(ts) =>
        if |ts| > 0 {
          DownKeepsInv(s.(pressed := true), ts[0].clientX);
        }
      case TouchMove(ts) =>
        if s.pressed && |ts| > 0 {
          MoveKeepsInv(s, ts[0].clientX);
        }
      case TouchEnd =>
        UpKeepsInv(s);
      case Resize(w) =>
        ResizeKeepsInv(s, w);
      case ResetClick =>
        ResetKeepsInv(s);
    }
  }

  lemma ResizeKeepsInv(s: State, w: int)
    requires Inv(s)
    ensures Inv(Draw(s.(clientWidth := w))) && Draw(s.(clientWidth := w)).raw == s.raw
    ensures Draw(s.(clientWidth := w)).config == s.config
  {
    SubseqRefl(s.raw);
    DrawKeepsInv(s.(clientWidth := w));
  }

  lemma ResetKeepsInv(s: State)
    requires Inv(s)
    ensures Inv(Reset(s)) && Reset(s).raw == s.raw && Reset(s).config == s.config
  {
    SubseqRefl(s.raw);
    DrawKeepsInv(s.(zoom := false));
  }

  lemma DownKeepsInv(s: State, x: real)
    requires Inv(s)
    ensures Inv(OnMouseDown(s, x)) && OnMouseDown(s, x).raw == s.raw && OnMouseDown(s, x).config == s.config
  {
  }

  lemma MoveKeepsInv(s: State, x: real)
    requires Inv(s)
    ensures Inv(OnMouseMove(s, x)) && OnMouseMove(s, x).raw == s.raw && OnMouseMove(s, x).config == s.config
  {
    SubseqRefl(s.raw);
    if s.pressed {
      DrawKeepsInv(s.(recX2 := Chart.Clamp(s.frame, ToInt32(x) as real - s.config.rectLeft)));
    }
  }

  /** Reset brings back every raw point after any events, placed as an unzoomed draw places them. */
  lemma ResetRestoresAll(s: State, es: seq<Chart.Event>)
    requires Inv(s)
    ensures var r := Reset(Run(s, es));
            && !r.zoom && Points(r.points) == s.raw
            && r.points == CalcPoints(FrameOf(s.config, r.clientWidth), s.raw)
  {
  }

  /**
   * Unlike tinyChart, a plain click zooms: the view becomes the points in the
   * one-pixel band under the click, or stays whole when none is there.
   */
  lemma ClickZooms(s: State, x: real)
    requires Inv(s)
    ensures var d := OnMouseDown(s, x);
            var r := OnMouseUp(d);
            && r.zoom && !r.pressed
            && Points(r.points) == Points(FilterPoints(s.points, d.recX1, d.recX1))
  {
  }

  /** Moving without a press changes nothing at all. */
  lemma MoveWithoutPressIsIgnored(s: State, x: real, y: real)
    requires Inv(s) && !s.pressed
    ensures Step(s, Chart.MouseMove(x, y)) == s
    ensures Step(s, Chart.TouchMove([Chart.Touch(x, y)])) == s
  {
  }

  /** A touch start with no touches still presses: the next release filters with the old band. */
  lemma EmptyTouchStartPresses(s: State)
    requires Inv(s)
    ensures Step(s, Chart.TouchStart([])) == s.(pressed := true)
  {
  }

  // ------------------------------------------------------------ rendering

  /** The demo path: `moveTo` the first point, then `lineTo` every point, the first included. */
  function Path(m: seq<MappedPoint>, i: nat): seq<Pixel>
    requires 1 <= |m| && HasSeries(m, i)
  {
    [Vertex(m[0], i)] + LineFrom(m, i, 0)
  }

  /**
   * The demo path repeats the first vertex and then draws the same polyline
   * as tinyChart's plain series.
   */
  lemma PathRepeatsFirst(m: seq<MappedPoint>, chartTypes: seq<int>, i: nat)
    requires 1 <= |m| && HasSeries(m, i) && !Stepped(chartTypes, i)
    ensures |Path(m, i)| == |m| + 1
    ensures Path(m, i)[0] == Path(m, i)[1]
    ensures Path(m, i)[1..] == SeriesPath(m, chartTypes, i)
  {
    LineFromShape(m, i, 0);
    LinePath(m, chartTypes, i);
  }

  /** `~~(minY + stepYValue * i)` with `stepYValue = (maxY - minY) / linesY`. */
  function YLabelValueAsWritten(r: Option<Range>, i: nat): int
  {
    YLabelValue(r, LINES_Y, i)
  }

  /** The `${text}°C` label. */
  function YLabelText(r: Option<Range>, i: nat): string
  {
    IntToString(YLabelValueAsWritten(r, i)) + "°C"
  }

  /**
   * Dividing by `linesY` rather than `linesY - 1` labels the top grid line,
   * where `maxY` is drawn, with the value three quarters up the range.
   */
  lemma TopLabelBelowMax(g: Range)
    requires g.lo < g.hi && -(TWO_31 as real) < g.lo && g.hi < TWO_31 as real
    ensures YLabelBase(g, LINES_Y, LINES_Y - 1) < g.hi
    ensures YLabelValueAsWritten(Some(g), LINES_Y - 1) == Trunc(YLabelBase(g, LINES_Y, LINES_Y - 1))
  {
    assert YLabelBase(g, 4, 3) == g.lo + 0.75 * (g.hi - g.lo);
    ToInt32Small(YLabelBase(g, 4, 3));
  }

  /**
   * `translate(MARGIN_LEFT - 35 + i * stepX, ctxHeight)`: with the demo's 60 px
   * bottom margin this is the point where tinyChart's `XLabelAnchor` puts label `i`.
   */
  function XLabelAnchorAt(f: Frame, i: nat): Pt
  {
    Pt((f.left - 35) as real + Mul(StepX(f), i as real), f.height as real)
  }

  /** The marker radius: every point, every series, 5 px. */
  const MARKER_RADIUS: int := 5

  // -------------------------------------------------------------- dataset

  /** The ten readings of three sensors that demo.js charts. */
  const DATASET: seq<RawPoint> := [
    RawPoint(1576276373606, [3.0, 15.0, 8.0]),
    RawPoint(1576276497992, [6.0, 17.0, 7.0]),
    RawPoint(1576276606154, [4.0, 13.0, 8.0]),
    RawPoint(1576276823890, [7.0, 8.0, 9.0]),
    RawPoint(1576277296946, [6.0, 9.0, 10.0]),
    RawPoint(1576277414295, [0.0, 7.0, 15.0]),
    RawPoint(1576277727236, [-2.0, 11.0, 13.0]),
    RawPoint(1576278727236, [5.0, 15.0, 12.0]),
    RawPoint(1576279500737, [-5.0, 17.0, 11.0]),
    RawPoint(1576280540169, [0.0, 13.0, 10.0])]

  /** `pts` holds the demo readings, point by point. */
  predicate IsDataset(pts: seq<RawPoint>)
  {
    |pts| == |DATASET| && forall j :: 0 <= j < |pts| ==> pts[j] == DATASET[j]
  }

  /** Every reading of `p` lies between -5 and 17. */
  predicate WithinDemoRange(p: RawPoint)
  {
    forall i :: 0 <= i < |p.values| ==> -5.0 <= p.values[i] <= 17.0
  }

  /** The demo timestamps strictly increase. */
  lemma DatasetTimesIncrease(pts: seq<RawPoint>)
    requires IsDataset(pts)
    ensures forall j :: 0 < j < |pts| ==> pts[j - 1].time < pts[j].time
    ensures TimesNondecreasing(pts)
  {
  }

  /** The demo data ranges from -5 to 17. */
  lemma DatasetExtremes(pts: seq<RawPoint>)
    requires IsDataset(pts)
    ensures Extremes(pts, []) == Some(Range(-5.0, 17.0))
  {
    assert WithinDemoRange(pts[0]) && WithinDemoRange(pts[1]) && WithinDemoRange(pts[2]) && WithinDemoRange(pts[3]);
    assert WithinDemoRange(pts[4]) && WithinDemoRange(pts[5]) && WithinDemoRange(pts[6]) && WithinDemoRange(pts[7]);
    assert WithinDemoRange(pts[8]) && WithinDemoRange(pts[9]);
    forall j, i | 0 <= j < |pts| && 0 <= i < |pts[j].values|
      ensures -5.0 <= Scaled(pts[j], [], i) <= 17.0
    {
      assert WithinDemoRange(pts[j]);
    }
    assert Scaled(pts[8], [], 0) == -5.0;
    assert Scaled(pts[1], [], 1) == 17.0;
    ExtremesAreMinMax(pts, [], -5.0, 17.0);
  }

  /** The first point sits at the left inset, the last at the right inset. */
  lemma DatasetSpansWidth(pts: seq<RawPoint>, clientWidth: int)
    requires IsDataset(pts)
    requires 2 * MARGIN_LEFT <= clientWidth < TWO_31
    ensures var m := CalcPoints(FrameOf(Config(None, None, None, 0.0), clientWidth), pts);
            m[0].x == 70 && m[9].x == clientWidth - 25
  {
    var f := FrameOf(Config(None, None, None, 0.0), clientWidth);
    XEndpoints(f, pts[0].time, pts[9].time);
  }

  /** A list's lowest value is drawn on the bottom edge of the plot and its highest on the top edge. */
  lemma DemoYEnds(f: Frame, pts: seq<RawPoint>, g: Range, jl: nat, il: nat, jh: nat, ih: nat)
    requires jl < |pts| && il < |pts[jl].values| && jh < |pts| && ih < |pts[jh].values|
    requires Extremes(pts, []) == Some(g) && g.lo < g.hi
    requires pts[jl].values[il] == g.lo && pts[jh].values[ih] == g.hi
    requires -TWO_31 < PlotHeight(f) < TWO_31
    ensures CalcPoints(f, pts)[jl].ys[il] == f.height - f.bottom
    ensures CalcPoints(f, pts)[jh].ys[ih] == f.top
  {
    DemoY(f, pts, jl, il);
    DemoY(f, pts, jh, ih);
    YEndpoints(f, g);
  }

  /** On the default 250 px canvas the lowest reading is drawn on the bottom edge, the highest on the top. */
  lemma DatasetSpansHeight(pts: seq<RawPoint>, clientWidth: int)
    requires IsDataset(pts)
    ensures var m := CalcPoints(FrameOf(Config(None, None, None, 0.0), clientWidth), pts);
            m[8].ys[0] == 190 && m[1].ys[1] == 15
  {
    var f := FrameOf(Config(None, None, None, 0.0), clientWidth);
    assert f == Frame(clientWidth, 250, 55, 10, 15, 60);
    DatasetExtremes(pts);
    DemoYEnds(f, pts, Range(-5.0, 17.0), 8, 0, 1, 1);
  }

  /** The four Y labels of the demo data read -5, 0, 6 and 11: the top line, where 17 is drawn, says 11. */
  lemma DatasetLabels()
    ensures YLabelText(Some(Range(-5.0, 17.0)), 0) == "-5°C"
    ensures YLabelText(Some(Range(-5.0, 17.0)), 1) == "0°C"
    ensures YLabelText(Some(Range(-5.0, 17.0)), 2) == "6°C"
    ensures YLabelText(Some(Range(-5.0, 17.0)), 3) == "11°C"
  {
    var g := Range(-5.0, 17.0);
    assert YLabelBase(g, 4, 0) == -5.0;
    assert YLabelBase(g, 4, 1) == 0.5;
    assert YLabelBase(g, 4, 2) == 6.0;
    assert YLabelBase(g, 4, 3) == 11.5;
    ToInt32Small(-5.0);
    ToInt32Small(0.5);
    ToInt32Small(6.0);
    ToInt32Small(11.5);
    TruncOfInt(-5);
    TruncOfInt(6);
    assert NatToString(11) == "11";
  }
}
