/**
 * The info box `drawChart` draws beside the pointer for every selected point
 * (tinyChart.js): a header with the point's date and time, then one row per
 * series, largest value first, each row coloured like its series.
 */
module Tooltip {

  import opened Mapping
  import opened Render

  const BOX_MARGIN_TOP: int := 10
  const BOX_WIDTH: int := 140
  const LINE_HEIGHT: int := 20

  /**
   * One row before sorting: the raw value of series `index` with that
   * series' colour, label and unit symbol.
   */
  datatype Row = Row(value: real, color: string, name: string, symbol: string, index: nat)

  /** `values.map((value, i) => ({ value, color, label, symbol }))` */
  function Rows(values: seq<real>, colors: seq<string>, labels: seq<string>, symbols: seq<string>): (rs: seq<Row>)
    ensures |rs| == |values|
    ensures forall i :: 0 <= i < |rs| ==>
              rs[i] == Row(values[i], ColorOf(colors, i), LabelOf(labels, i), SymbolOf(symbols, i), i)
  {
    seq(|values|, i requires 0 <= i < |values| => Row(values[i], ColorOf(colors, i), LabelOf(labels, i), SymbolOf(symbols, i), i))
  }

  /**
   * `a` is drawn above `b`: the comparator `b.value - a.value` puts larger
   * values first, and the sort is stable, so equal values keep series order.
   */
  predicate Before(a: Row, b: Row)
  {
    a.value > b.value || (a.value == b.value && a.index < b.index)
  }

  predicate Ordered(rs: seq<Row>)
  {
    forall i, j :: 0 <= i < j < |rs| ==> Before(rs[i], rs[j])
  }

  predicate IndexIncreasing(rs: seq<Row>)
  {
    forall i, j :: 0 <= i < j < |rs| ==> rs[i].index < rs[j].index
  }

  /** Puts `r` in front of the first row whose value is not larger than its own. */
  function Insert(r: Row, rs: seq<Row>): seq<Row>
  {
    if rs == [] || rs[0].value <= r.value then [r] + rs
    else [rs[0]] + Insert(r, rs[1..])
  }

  /** A row that is not below the first of an ordered list, and precedes all of it in series order, may lead it. */
  lemma LeadKeepsOrder(r: Row, rs: seq<Row>)
    requires Ordered(rs)
    requires forall x :: x in rs ==> r.index < x.index
    requires rs == [] || rs[0].value <= r.value
    ensures Ordered([r] + rs)
  {
    var out := [r] + rs;
    forall i, j | 0 <= i < j < |out|
      ensures Before(out[i], out[j])
    {
      if i == 0 {
        assert out[j] == rs[j - 1] && out[j] in rs;
        if j > 1 {
          assert Before(rs[0], rs[j - 1]);
        }
      } else {
        assert Before(rs[i - 1], rs[j - 1]);
      }
    }
  }

  /** A row above everything that follows it, where each of those is `r` or a later row of an ordered list. */
  lemma HeadKeepsOrder(h: Row, r: Row, t: seq<Row>, ins: seq<Row>)
    requires Ordered(ins) && Before(h, r)
    requires forall x :: x in t ==> Before(h, x)
    requires multiset(ins) == multiset{r} + multiset(t)
    ensures Ordered([h] + ins)
  {
    var out := [h] + ins;
    forall i, j | 0 <= i < j < |out|
      ensures Before(out[i], out[j])
    {
      if i == 0 {
        var y := ins[j - 1];
        assert y in multiset(ins);
        if y != r {
          assert y in multiset(t);
        }
      } else {
        assert Before(ins[i - 1], ins[j - 1]);
      }
    }
  }

  lemma {:induction false} InsertSpec(r: Row, rs: seq<Row>)
    requires Ordered(rs)
    requires forall x :: x in rs ==> r.index < x.index
    ensures multiset(Insert(r, rs)) == multiset{r} + multiset(rs)
    ensures Ordered(Insert(r, rs))
  {
    if rs == [] || rs[0].value <= r.value {
      LeadKeepsOrder(r, rs);
    } else {
      var t := rs[1..];
      assert rs == [rs[0]] + t;
      assert forall x :: x in t ==> x in rs;
      InsertSpec(r, t);
      forall x | x in t
        ensures Before(rs[0], x)
      {
        var k :| 0 <= k < |t| && t[k] == x;
        assert Before(rs[0], rs[k + 1]);
      }
      HeadKeepsOrder(rs[0], r, t, Insert(r, t));
    }
  }

  /** Everything a sort of the tail returns comes after the head in series order. */
  lemma HeadIndexSmallest(rs: seq<Row>, t: seq<Row>)
    requires 1 <= |rs| && IndexIncreasing(rs)
    requires multiset(t) == multiset(rs[1..])
    ensures forall x :: x in t ==> rs[0].index < x.index
  {
    forall x | x in t
      ensures rs[0].index < x.index
    {
      assert x in multiset(rs[1..]);
      var k :| 0 <= k < |rs[1..]| && rs[1..][k] == x;
      assert rs[k + 1] == x;
    }
  }

  /** `.sort((a, b) => b.value - a.value)`, as a stable insertion sort. */
  function SortRows(rs: seq<Row>): (out: seq<Row>)
    requires IndexIncreasing(rs)
    ensures multiset(out) == multiset(rs)
    ensures Ordered(out)
  {
    if rs == [] then []
    else
      var t := SortRows(rs[1..]);
      HeadIndexSmallest(rs, t);
      InsertSpec(rs[0], t);
      assert rs == [rs[0]] + rs[1..];
      Insert(rs[0], t)
  }

  /**
   * The rows of a tooltip are all of the point's series, each once, largest
   * value first, ties in series order.
   */
  lemma SortedRows(values: seq<real>, colors: seq<string>, labels: seq<string>, symbols: seq<string>)
    ensures IndexIncreasing(Rows(values, colors, labels, symbols))
    ensures var out := SortRows(Rows(values, colors, labels, symbols));
            && |out| == |values|
            && multiset(out) == multiset(Rows(values, colors, labels, symbols))
            && (forall i, j :: 0 <= i < j < |out| ==> out[i].value >= out[j].value)
            && (forall i, j :: 0 <= i < j < |out| && out[i].value == out[j].value ==> out[i].index < out[j].index)
  {
    var out := SortRows(Rows(values, colors, labels, symbols));
    assert |multiset(out)| == |out|;
    forall i, j | 0 <= i < j < |out|
      ensures out[i].value >= out[j].value
    {
      assert Before(out[i], out[j]);
    }
  }

  /**
   * Series 0 and 2 at the same value, series 1 above them: series 1 comes
   * first, then the tied two in series order.
   */
  lemma TiesKeepSeriesOrder(a: Row, b: Row, c: Row)
    requires a.index < b.index < c.index
    requires a.value == c.value < b.value
    ensures SortRows([a, b, c]) == [b, a, c]
  {
    assert [a, b, c][1..] == [b, c];
    SortTwoDescending(b, c);
    assert Insert(a, [c]) == [a, c];
    assert Insert(a, [b, c]) == [b, a, c];
  }

  /** Two rows already in descending value order sort to themselves. */
  lemma SortTwoDescending(b: Row, c: Row)
    requires b.index < c.index && c.value <= b.value
    ensures SortRows([b, c]) == [b, c]
  {
    assert [b, c][1..] == [c];
    assert SortRows([c]) == [c];
    assert Insert(b, [c]) == [b, c];
  }

  // ----------------------------------------------------------------- layout

  /** `height = point.y.length * lineHeight + lineHeight + marginTop` */
  function BoxHeight(seriesCount: nat): int
  {
    seriesCount * LINE_HEIGHT + LINE_HEIGHT + BOX_MARGIN_TOP
  }

  /** The box sits 10 px right of the pointer, or 145 px left of it when it would cross the right margin. */
  function BoxOffset(f: Frame, pointerX: int): int
  {
    if pointerX > f.width - f.right - BOX_WIDTH then -5 - BOX_WIDTH else 10
  }

  /** A text position and what is drawn there. */
  datatype Text = Text(at: Pt, text: string)

  /** A tooltip row: its label in the series colour, then the value and unit. */
  datatype PlacedRow = PlacedRow(row: Row, caption: Text, valueAt: Pt)

  /** The box, the header anchors (date, then time in red), and the rows. */
  datatype Tip = Tip(time: int, box: Rect, dateAt: Pt, timeAt: Pt, rows: seq<PlacedRow>)

  /** Baseline of row `k`: `valueY` starts two line heights below the box top margin and steps by one. */
  function RowY(pointerY: int, k: nat): int
  {
    pointerY + BOX_MARGIN_TOP + LINE_HEIGHT * 2 + LINE_HEIGHT * k
  }

  /** Rows in drawing order, from row `k` on; `measure` stands for `ctx.measureText(label).width`. */
  function Place(rs: seq<Row>, left: int, pointerY: int, measure: string -> real, k: nat): (out: seq<PlacedRow>)
    requires k <= |rs|
    decreases |rs| - k
  {
    if k == |rs| then []
    else
      var y := RowY(pointerY, k) as real;
      [PlacedRow(rs[k], Text(Pt((left + 5) as real, y), rs[k].name + ":"),
                 Pt(left as real + measure(rs[k].name) + 10.0, y))]
      + Place(rs, left, pointerY, measure, k + 1)
  }

  lemma {:induction false} PlaceShape(rs: seq<Row>, left: int, pointerY: int, measure: string -> real, k: nat)
    requires k <= |rs|
    ensures |Place(rs, left, pointerY, measure, k)| == |rs| - k
    ensures forall n :: 0 <= n < |rs| - k ==> Place(rs, left, pointerY, measure, k)[n].row == rs[k + n]
    ensures forall n :: 0 <= n < |rs| - k ==>
              Place(rs, left, pointerY, measure, k)[n].caption.at == Pt((left + 5) as real, RowY(pointerY, k + n) as real)
    ensures forall n :: 0 <= n < |rs| - k ==>
              Place(rs, left, pointerY, measure, k)[n].valueAt.y == RowY(pointerY, k + n) as real
    decreases |rs| - k
  {
    if k < |rs| {
      PlaceShape(rs, left, pointerY, measure, k + 1);
      var here := Place(rs, left, pointerY, measure, k);
      var rest := Place(rs, left, pointerY, measure, k + 1);
      var y := RowY(pointerY, k) as real;
      var head := PlacedRow(rs[k], Text(Pt((left + 5) as real, y), rs[k].name + ":"),
                            Pt(left as real + measure(rs[k].name) + 10.0, y));
      assert here == [head] + rest;
      forall n | 1 <= n < |rs| - k
        ensures here[n] == rest[n - 1]
        ensures k + n == (k + 1) + (n - 1)
      {
      }
    }
  }

  /** The info box of one selected point. */
  function TipFor(f: Frame, p: MappedPoint, pointerX: int, pointerY: int,
                  colors: seq<string>, labels: seq<string>, symbols: seq<string>,
                  measure: string -> real): Tip
  {
    var left := pointerX + BoxOffset(f, pointerX);
    var headerY := (pointerY + BOX_MARGIN_TOP + LINE_HEIGHT) as real;
    var rs := Rows(p.point.values, colors, labels, symbols);
    SortedRows(p.point.values, colors, labels, symbols);
    Tip(p.point.time,
        Rect(left as real, (pointerY + 10) as real, BOX_WIDTH as real, BoxHeight(|p.ys|) as real),
        Pt((left + 5) as real, headerY), Pt((left + 80) as real, headerY),
        Place(SortRows(rs), left, pointerY, measure, 0))
  }

  /**
   * The box opens on the right of the pointer unless it would pass the
   * right margin, and then ends 5 px left of the pointer; opened on the
   * right it ends within 10 px past the right margin.
   */
  lemma TipSide(f: Frame, p: MappedPoint, pointerX: int, pointerY: int,
                colors: seq<string>, labels: seq<string>, symbols: seq<string>, measure: string -> real)
    ensures var b := TipFor(f, p, pointerX, pointerY, colors, labels, symbols, measure).box;
            if pointerX > f.width - f.right - BOX_WIDTH
            then b.x + b.w == (pointerX - 5) as real
            else b.x == (pointerX + 10) as real && b.x + b.w <= (f.width - f.right + 10) as real
  {
  }

  /**
   * For a point mapped by `calcPoints` there is one row per series, and
   * every row baseline lies inside the box, below the header.
   */
  lemma TipRowsInBox(f: Frame, p: MappedPoint, pointerX: int, pointerY: int,
                     colors: seq<string>, labels: seq<string>, symbols: seq<string>, measure: string -> real)
    requires |p.ys| == |p.point.values|
    ensures var t := TipFor(f, p, pointerX, pointerY, colors, labels, symbols, measure);
            && |t.rows| == |p.point.values|
            && (forall k :: 0 <= k < |t.rows| ==>
                  t.dateAt.y < t.rows[k].caption.at.y < t.box.y + t.box.h && t.box.x < t.rows[k].caption.at.x)
  {
    var t := TipFor(f, p, pointerX, pointerY, colors, labels, symbols, measure);
    var rs := SortRows(Rows(p.point.values, colors, labels, symbols));
    var left := pointerX + BoxOffset(f, pointerX);
    SortedRows(p.point.values, colors, labels, symbols);
    PlaceShape(rs, left, pointerY, measure, 0);
    assert t.rows == Place(rs, left, pointerY, measure, 0);
    assert t.box.y + t.box.h == (pointerY + 40 + 20 * |rs|) as real;
    forall k | 0 <= k < |t.rows|
      ensures t.dateAt.y < t.rows[k].caption.at.y < t.box.y + t.box.h && t.box.x < t.rows[k].caption.at.x
    {
      assert t.rows[k].caption.at == Pt((left + 5) as real, RowY(pointerY, k) as real);
    }
  }

  /** One info box per selected point, in point order, all at the pointer. */
  function Tips(f: Frame, m: seq<MappedPoint>, pointerX: int, pointerY: int,
                colors: seq<string>, labels: seq<string>, symbols: seq<string>,
                measure: string -> real): seq<Tip>
  {
    if m == [] then []
    else (if m[0].selected then [TipFor(f, m[0], pointerX, pointerY, colors, labels, symbols, measure)] else [])
         + Tips(f, m[1..], pointerX, pointerY, colors, labels, symbols, measure)
  }

  /** There are as many boxes as selected points, and each shows one of them. */
  lemma {:induction false} TipsOfSelected(f: Frame, m: seq<MappedPoint>, pointerX: int, pointerY: int,
                                          colors: seq<string>, labels: seq<string>, symbols: seq<string>,
                                          measure: string -> real)
    ensures |Tips(f, m, pointerX, pointerY, colors, labels, symbols, measure)| == |SelectedOf(m)|
    ensures forall k :: 0 <= k < |SelectedOf(m)| ==>
              Tips(f, m, pointerX, pointerY, colors, labels, symbols, measure)[k]
                == TipFor(f, SelectedOf(m)[k], pointerX, pointerY, colors, labels, symbols, measure)
  {
    if m != [] {
      TipsOfSelected(f, m[1..], pointerX, pointerY, colors, labels, symbols, measure);
    }
  }

  /** The selected points, in order. */
  function SelectedOf(m: seq<MappedPoint>): seq<MappedPoint>
  {
    if m == [] then [] else (if m[0].selected then [m[0]] else []) + SelectedOf(m[1..])
  }
}
