/**
 * The interactive state of a tinyChart `Chart` (tinyChart.js): the raw and the
 * displayed points, the drag-to-zoom selector and the pointer, driven by the
 * mouse, touch, resize and reset handlers. Drawing to the canvas is left to
 * module Render; here `draw()` is the part that recomputes the points.
 */
module Chart {

  import opened Wrappers
  import opened JsNumber
  import opened Series
  import opened Mapping
  import opened Selection

  /** `DEFAULT_HEIGHT`, used when no height option is given. */
  const DEFAULT_HEIGHT: int := 300
  /** `MARGIN_LEFT` is the measured width of the first unit symbol plus this. */
  const MARGIN_LEFT_PAD: int := 45
  const MARGIN_RIGHT: int := 10
  const MARGIN_TOP: int := 15
  const MARGIN_BOTTOM: int := 80

  /**
   * What the chart takes from its surroundings: the `width`, `height` and
   * `delimiters` options, the measured width of `symbols[0]`, and the canvas'
   * client rectangle, read once in the constructor.
   */
  datatype Config = Config(
    width: Option<int>,
    height: Option<int>,
    delimiters: seq<real>,
    symbolWidth: int,
    rectLeft: real,
    rectTop: real)

  /**
   * The fields the handlers read and write. `points` holds the points of the
   * last draw, with their pixel positions; `frame` holds the canvas size and
   * margins of that draw; `clientWidth` is the parent element's width.
   */
  datatype State = State(
    config: Config,
    raw: seq<RawPoint>,
    clientWidth: int,
    frame: Frame,
    points: seq<MappedPoint>,
    pressed: bool,
    zoom: bool,
    recX1: real,
    recX2: real,
    pointerX: int,
    pointerY: int)

  /** One touch of a touch event; only `clientX` and `clientY` are read. */
  datatype Touch = Touch(clientX: real, clientY: real)

  datatype Event =
    | MouseDown(clientX: real)
    | MouseMove(clientX: real, clientY: real)
    | MouseUp
    | TouchStart(touches: seq<Touch>)
    | TouchMove(touches: seq<Touch>)
    | TouchEnd
    | Resize(clientWidth: int)
    | ResetClick

  /** `options.x || fallback`: an absent or zero option gives way to the fallback. */
  function OrElse(o: Option<int>, fallback: int): (r: int)
    ensures o.Some? && o.value != 0 ==> r == o.value
    ensures o.None? || o.value == 0 ==> r == fallback
  {
    if o.Some? && o.value != 0 then o.value else fallback
  }

  /** `setBackgroundSize()` together with the margin constants. */
  function FrameOf(c: Config, clientWidth: int): (f: Frame)
    ensures f.width == OrElse(c.width, clientWidth) && f.height == OrElse(c.height, DEFAULT_HEIGHT)
    ensures f.left == c.symbolWidth + MARGIN_LEFT_PAD
    ensures f.right == MARGIN_RIGHT && f.top == MARGIN_TOP && f.bottom == MARGIN_BOTTOM
  {
    Frame(OrElse(c.width, clientWidth), OrElse(c.height, DEFAULT_HEIGHT),
          c.symbolWidth + MARGIN_LEFT_PAD, MARGIN_RIGHT, MARGIN_TOP, MARGIN_BOTTOM)
  }

  /** The list `draw()` maps: the displayed points while zoomed, the raw points otherwise. */
  function Source(s: State): seq<RawPoint>
  {
    if s.zoom then Points(s.points) else s.raw
  }

  /** `draw()`: re-read the canvas size and recompute the points from Source. */
  function Draw(s: State): (s': State)
    requires |Source(s)| >= 1
    ensures s'.frame == FrameOf(s.config, s.clientWidth)
    ensures Points(s'.points) == Source(s)
    ensures s' == s.(frame := s'.frame, points := s'.points)
  {
    var f := FrameOf(s.config, s.clientWidth);
    s.(frame := f, points := CalcPoints(f, s.config.delimiters, Source(s), s.pointerX))
  }

  /** The constructor: initial fields, then a first draw of the raw points. */
  function Init(c: Config, raw: seq<RawPoint>, clientWidth: int): (s: State)
    requires |raw| >= 1
    ensures s.raw == raw && Points(s.points) == raw
    ensures !s.pressed && !s.zoom && s.pointerX == 0
  {
    Draw(State(c, raw, clientWidth, FrameOf(c, clientWidth), [], false, false, 0.0, 0.0, 0, 0))
  }

  /**
   * The selector clamp: below `MARGIN_LEFT` becomes `MARGIN_LEFT`, then above
   * `ctxWidth - MARGIN_RIGHT` becomes that. The second test wins when the two
   * limits cross on a very narrow canvas.
   */
  function Clamp(f: Frame, x: real): real
  {
    var lo := if x < f.left as real then f.left as real else x;
    if lo > (f.width - f.right) as real then (f.width - f.right) as real else lo
  }

  /** Clamping lands between the margins when they do not cross, and leaves such points alone. */
  lemma ClampSpec(f: Frame, x: real)
    ensures f.left <= f.width - f.right ==> f.left as real <= Clamp(f, x) <= (f.width - f.right) as real
    ensures f.left as real <= x <= (f.width - f.right) as real ==> Clamp(f, x) == x
    ensures f.left > f.width - f.right ==> Clamp(f, x) == (f.width - f.right) as real
  {
  }

  /**
   * `onMouseDown`: press, and start the selector at `~~clientX - rect.left`,
   * clamped into the plot between the margins.
   */
  function OnMouseDown(s: State, clientX: real): (s': State)
    ensures s'.pressed
    ensures s'.recX1 == s'.recX2 == Clamp(s.frame, ToInt32(clientX) as real - s.config.rectLeft)
    ensures s' == s.(pressed := true, recX1 := s'.recX1, recX2 := s'.recX2)
    ensures s.frame.left <= s.frame.width - s.frame.right ==>
              s.frame.left as real <= s'.recX1 <= (s.frame.width - s.frame.right) as real
    ensures var x := ToInt32(clientX) as real - s.config.rectLeft;
            s.frame.left as real <= x <= (s.frame.width - s.frame.right) as real ==> s'.recX1 == x
  {
    var x := Clamp(s.frame, ToInt32(clientX) as real - s.config.rectLeft);
    s.(pressed := true, recX1 := x, recX2 := x)
  }

  /**
   * `onMouseMove`: a move while pressed turns zoom on and drags the selector's
   * second edge; every move records the pointer and redraws, which re-flags
   * the hovered points.
   */
  function OnMouseMove(s: State, clientX: real, clientY: real): State
    requires |s.raw| >= 1 && |s.points| >= 1
  {
    var px := ToInt32(clientX - s.config.rectLeft);
    var py := ToInt32(clientY - s.config.rectTop);
    var recX2 := if s.pressed then Clamp(s.frame, px as real) else s.recX2;
    Draw(s.(zoom := s.zoom || s.pressed, pointerX := px, pointerY := py, recX2 := recX2))
  }

  /** `onMouseUp`: release, filter to the selector band, redraw. */
  function OnMouseUp(s: State): State
    requires |s.raw| >= 1 && |s.points| >= 1
  {
    var filtered := FilterPoints(s.points, s.recX1, s.recX2);
    FilterPointsSpec(s.points, s.recX1, s.recX2);
    Draw(s.(pressed := false, points := filtered))
  }

  /**
   * `resetPoints`: zoom off and redraw. Its `points = rawPoints` is overwritten
   * by that same draw, which maps the raw points because zoom is off.
   */
  function Reset(s: State): (s': State)
    requires |s.raw| >= 1
    ensures !s'.zoom && Points(s'.points) == s.raw
  {
    Draw(s.(zoom := false))
  }

  /**
   * One event. The touch handlers forward `touches[0]`; with no touches that
   * read throws before any field changes, so the state stays as it was.
   */
  function Step(s: State, e: Event): State
    requires |s.raw| >= 1 && |s.points| >= 1
  {
    match e
    case MouseDown(x) => OnMouseDown(s, x)
    case MouseMove(x, y) => OnMouseMove(s, x, y)
    case MouseUp => OnMouseUp(s)
    case TouchStart(ts) => if |ts| == 0 then s else OnMouseDown(s, ts[0].clientX)
    case TouchMove(ts) => if |ts| == 0 then s else OnMouseMove(s, ts[0].clientX, ts[0].clientY)
    case TouchEnd => OnMouseUp(s)
    case Resize(w) => Draw(s.(clientWidth := w))
    case ResetClick => Reset(s)
  }

  /**
   * What every reachable state satisfies: there is data; the displayed points
   * are the raw points with some deleted, in their original order; they are
   * all the raw points unless zoomed; and they carry exactly the positions and
   * flags the last frame and pointer give them.
   */
  predicate Inv(s: State)
  {
    && |s.raw| >= 1
    && |s.points| >= 1
    && Subseq(Points(s.points), s.raw)
    && (!s.zoom ==> Points(s.points) == s.raw)
    && s.points == CalcPoints(s.frame, s.config.delimiters, Points(s.points), s.pointerX)
  }

  /** The handlers applied in turn. Any sequence of events keeps the invariant, the raw data and the configuration. */
  function Run(s: State, es: seq<Event>): (r: State)
    requires Inv(s)
    ensures Inv(r) && r.raw == s.raw && r.config == s.config
    decreases |es|
  {
    if es == [] then s
    else
      StepKeepsInv(s, es[0]);
      Run(Step(s, es[0]), es[1..])
  }

  lemma InitInv(c: Config, raw: seq<RawPoint>, clientWidth: int)
    requires |raw| >= 1
    ensures Inv(Init(c, raw, clientWidth))
  {
    SubseqRefl(raw);
  }

  /**
   * With no height option the chart is 300 px tall and every value is drawn
   * between y = 15 and y = 220. The first point sits 15 px right of the left
   * margin. With no width option (or a zero one) and distinct first and last
   * times, the last point sits 25 px left of the canvas' right edge.
   */
  lemma InitLayout(c: Config, raw: seq<RawPoint>, clientWidth: int)
    requires |raw| >= 1 && c.height.None?
    ensures var s := Init(c, raw, clientWidth);
            && s.frame.height == DEFAULT_HEIGHT
            && (forall j, i | 0 <= j < |raw| && 0 <= i < |raw[j].values| ::
                  MARGIN_TOP <= s.points[j].ys[i] <= DEFAULT_HEIGHT - MARGIN_BOTTOM)
            && s.points[0].x == c.symbolWidth + MARGIN_LEFT_PAD + INSET
    ensures var s := Init(c, raw, clientWidth);
            (c.width.None? || c.width == Some(0)) && raw[0].time != raw[|raw| - 1].time
              && -TWO_31 < PlotWidth(s.frame) < TWO_31 ==>
              s.points[|raw| - 1].x == clientWidth - MARGIN_RIGHT - INSET
  {
    var s := Init(c, raw, clientWidth);
    var f := FrameOf(c, clientWidth);
    assert s.frame == f && s.points == CalcPoints(f, c.delimiters, raw, 0);
    assert PlotHeight(f) == DEFAULT_HEIGHT - MARGIN_TOP - MARGIN_BOTTOM;
    MappedYInPlot(f, c.delimiters, raw, 0);
    MappedXEndpoints(f, c.delimiters, raw, 0);
  }

  /** A draw keeps the invariant: it maps a sub-list of the raw points and nothing else. */
  lemma DrawKeepsInv(s: State)
    requires |s.raw| >= 1 && |Source(s)| >= 1
    requires Subseq(Source(s), s.raw)
    ensures Inv(Draw(s))
  {
    var s' := Draw(s);
    assert |s'.points| == |Source(s)|;
    assert s'.raw == s.raw;
  }

  lemma StepKeepsInv(s: State, e: Event)
    requires Inv(s)
    ensures Inv(Step(s, e))
    ensures Step(s, e).raw == s.raw && Step(s, e).config == s.config
  {
    SubseqRefl(s.raw);
    match e {
      case MouseDown(_) =>
      case MouseMove(x, y) =>
        MoveKeepsInv(s, x, y);
      case MouseUp =>
        UpKeepsInv(s);
      case TouchStart(_) =>
      case TouchMove(ts) =>
        if |ts| > 0 {
          MoveKeepsInv(s, ts[0].clientX, ts[0].clientY);
        }
      case TouchEnd =>
        UpKeepsInv(s);
      case Resize(w) =>
        DrawKeepsInv(s.(clientWidth := w));
      case ResetClick =>
        DrawKeepsInv(s.(zoom := false));
    }
  }

  lemma MoveKeepsInv(s: State, x: real, y: real)
    requires Inv(s)
    ensures Inv(OnMouseMove(s, x, y)) && OnMouseMove(s, x, y).raw == s.raw && OnMouseMove(s, x, y).config == s.config
  {
    SubseqRefl(s.raw);
    var px := ToInt32(x - s.config.rectLeft);
    var py := ToInt32(y - s.config.rectTop);
    var recX2 := if s.pressed then Clamp(s.frame, px as real) else s.recX2;
    DrawKeepsInv(s.(zoom := s.zoom || s.pressed, pointerX := px, pointerY := py, recX2 := recX2));
  }

  lemma UpKeepsInv(s: State)
    requires Inv(s)
    ensures Inv(OnMouseUp(s)) && OnMouseUp(s).raw == s.raw && OnMouseUp(s).config == s.config
  {
    var filtered := FilterPoints(s.points, s.recX1, s.recX2);
    FilterPointsSpec(s.points, s.recX1, s.recX2);
    SubseqTrans(Points(filtered), Points(s.points), s.raw);
    SubseqRefl(s.raw);
    var t := s.(pressed := false, points := filtered);
    DrawKeepsInv(t);
  }

  /**
   * However far the user zoomed, Reset brings back every raw point, at the
   * positions an unzoomed draw at the same canvas size gives them.
   */
  lemma ResetRestoresAll(s: State, es: seq<Event>)
    requires Inv(s)
    ensures var r := Reset(Run(s, es));
            && !r.zoom && Points(r.points) == s.raw
            && r.points == CalcPoints(FrameOf(s.config, r.clientWidth), s.config.delimiters, s.raw, r.pointerX)
  {
  }

  /** A drag keeps the selector's moving edge between the margins the press was clamped to. */
  lemma DragStaysInPlot(s: State, x: real, y: real)
    requires Inv(s) && s.pressed
    requires s.frame.left <= s.frame.width - s.frame.right
    ensures var r := OnMouseMove(s, x, y);
            && r.zoom && r.pressed && r.recX1 == s.recX1
            && s.frame.left as real <= r.recX2 <= (s.frame.width - s.frame.right) as real
  {
    ClampSpec(s.frame, ToInt32(x - s.config.rectLeft) as real);
  }

  /** Displayed points are always a time-ordered slice of time-ordered data. */
  lemma ViewStaysOrdered(s: State, es: seq<Event>)
    requires Inv(s) && TimesNondecreasing(s.raw)
    ensures TimesNondecreasing(Points(Run(s, es).points))
  {
    SubseqOrdered(Points(Run(s, es).points), s.raw);
  }

  lemma {:induction false} SubseqOrdered(a: seq<RawPoint>, b: seq<RawPoint>)
    requires Subseq(a, b) && TimesNondecreasing(b)
    ensures TimesNondecreasing(a)
    decreases |b|
  {
    if a != [] {
      assert TimesNondecreasing(b[1..]);
      if Subseq(a, b[1..]) {
        SubseqOrdered(a, b[1..]);
      } else {
        SubseqOrdered(a[1..], b[1..]);
        SubseqElements(a[1..], b[1..]);
        forall k | 0 < k < |a|
          ensures a[0].time <= a[k].time
        {
          assert a[k] == a[1..][k - 1];
          assert a[k] in b[1..];
        }
      }
    }
  }

  /**
   * A click without a drag does not zoom: pressing and releasing from an
   * unzoomed state leaves every raw point on screen.
   */
  lemma ClickKeepsFullView(s: State, x: real)
    requires Inv(s) && !s.zoom
    ensures var r := OnMouseUp(OnMouseDown(s, x));
            !r.zoom && !r.pressed && Points(r.points) == s.raw
  {
  }

  /**
   * On a zoomed chart a click does not restore the full view: the release
   * filters the displayed points to the click's column, zoom stays on, and
   * when no displayed point lies in that column the view is unchanged.
   */
  lemma ClickNarrowsZoomedView(s: State, x: real)
    requires Inv(s) && s.zoom
    ensures var d := OnMouseDown(s, x);
            var r := OnMouseUp(d);
            && r.zoom && !r.pressed
            && Points(r.points) == Points(FilterPoints(s.points, d.recX1, d.recX1))
            && ((forall p :: p in s.points ==> !InBand(p, d.recX1, d.recX1)) ==> Points(r.points) == Points(s.points))
  {
    var d := OnMouseDown(s, x);
    FilterPointsSpec(s.points, d.recX1, d.recX1);
  }

  /**
   * A drag zooms: after press, move and release the chart is zoomed and shows
   * the points the band covered (or, when it covered none, what it showed).
   */
  lemma DragZooms(s: State, x1: real, x2: real, y: real)
    requires Inv(s)
    ensures var d := OnMouseMove(OnMouseDown(s, x1), x2, y);
            var r := OnMouseUp(d);
            && r.zoom && !r.pressed
            && Points(r.points) == Points(FilterPoints(d.points, d.recX1, d.recX2))
  {
    var d := OnMouseMove(OnMouseDown(s, x1), x2, y);
    assert d.zoom;
  }

  /**
   * A move without a press only tracks the pointer: the displayed points and
   * the zoom state are as they were, and a point is flagged exactly when the
   * new pointer is within 10 px of it.
   */
  lemma HoverOnlyTracks(s: State, x: real, y: real)
    requires Inv(s) && !s.pressed
    ensures var r := OnMouseMove(s, x, y);
            && r.zoom == s.zoom && r.recX2 == s.recX2
            && Points(r.points) == Points(s.points)
            && r.pointerX == ToInt32(x - s.config.rectLeft)
            && forall j :: 0 <= j < |r.points| ==> (r.points[j].selected <==> Hovered(r.pointerX, r.points[j].x))
  {
  }
}
