/**
 * Input points and the per-series scaling that puts heterogeneous units on
 * one Y axis (tinyChart.js `delimiters`), with the running minimum and
 * maximum that `calcPoints` keeps in `minY` / `maxY`.
 */
module Series {

  import opened Wrappers

  /** One input sample: a timestamp in milliseconds and one value per series. */
  datatype RawPoint = RawPoint(time: int, values: seq<real>)

  /** The closed value interval `[minY, maxY]` the Y axis spans. */
  datatype Range = Range(lo: real, hi: real)

  /** `delimiters[i] || 1`: a missing or zero divisor acts as 1. */
  function Divisor(delimiters: seq<real>, i: nat): (d: real)
    ensures d != 0.0
    ensures i < |delimiters| && delimiters[i] != 0.0 ==> d == delimiters[i]
    ensures i >= |delimiters| || delimiters[i] == 0.0 ==> d == 1.0
  {
    if i < |delimiters| && delimiters[i] != 0.0 then delimiters[i] else 1.0
  }

  /** The value series `i` of `p` is plotted at. */
  function Scaled(p: RawPoint, delimiters: seq<real>, i: nat): real
    requires i < |p.values|
  {
    p.values[i] / Divisor(delimiters, i)
  }

  function ScaledValues(p: RawPoint, delimiters: seq<real>): (s: seq<real>)
    ensures |s| == |p.values|
    ensures forall i :: 0 <= i < |s| ==> s[i] == Scaled(p, delimiters, i)
  {
    seq(|p.values|, i requires 0 <= i < |p.values| => Scaled(p, delimiters, i))
  }

  /** Every scaled value of every point, in visiting order. */
  function AllScaled(pts: seq<RawPoint>, delimiters: seq<real>): seq<real>
  {
    if pts == [] then [] else ScaledValues(pts[0], delimiters) + AllScaled(pts[1..], delimiters)
  }

  ghost predicate IsScaledValue(pts: seq<RawPoint>, delimiters: seq<real>, v: real)
  {
    exists j, i :: 0 <= j < |pts| && 0 <= i < |pts[j].values| && v == Scaled(pts[j], delimiters, i)
  }

  /** AllScaled holds exactly the scaled values of the points. */
  lemma {:induction false} AllScaledMembers(pts: seq<RawPoint>, delimiters: seq<real>, v: real)
    ensures v in AllScaled(pts, delimiters) <==> IsScaledValue(pts, delimiters, v)
    decreases |pts|
  {
    if pts != [] {
      var head := ScaledValues(pts[0], delimiters);
      var rest := AllScaled(pts[1..], delimiters);
      AllScaledMembers(pts[1..], delimiters, v);
      if v in head {
        var i :| 0 <= i < |head| && head[i] == v;
        assert v == Scaled(pts[0], delimiters, i);
      } else if v in rest {
        var j, i :| 0 <= j < |pts[1..]| && 0 <= i < |pts[1..][j].values| && v == Scaled(pts[1..][j], delimiters, i);
        assert pts[1..][j] == pts[j + 1];
      }
      if IsScaledValue(pts, delimiters, v) {
        var j, i :| 0 <= j < |pts| && 0 <= i < |pts[j].values| && v == Scaled(pts[j], delimiters, i);
        if j == 0 {
          assert head[i] == v;
        } else {
          assert pts[1..][j - 1] == pts[j];
          assert IsScaledValue(pts[1..], delimiters, v);
        }
      }
    }
  }

  /** The running minimum `if (v < acc) acc = v` over `s`, started from `acc`. */
  function Lowest(acc: real, s: seq<real>): (r: real)
    ensures r <= acc
    ensures forall k :: 0 <= k < |s| ==> r <= s[k]
    ensures r == acc || r in s
    decreases |s|
  {
    if s == [] then acc else Lowest(if s[0] < acc then s[0] else acc, s[1..])
  }

  /** The running maximum `if (v > acc) acc = v` over `s`, started from `acc`. */
  function Highest(acc: real, s: seq<real>): (r: real)
    ensures acc <= r
    ensures forall k :: 0 <= k < |s| ==> s[k] <= r
    ensures r == acc || r in s
    decreases |s|
  {
    if s == [] then acc else Highest(if s[0] > acc then s[0] else acc, s[1..])
  }

  /**
   * `minY` / `maxY` after the first pass of `calcPoints`: both start from the
   * RAW first value of the first point and then absorb every scaled value.
   * When the first point has no values they stay `undefined` (None).
   */
  function Extremes(pts: seq<RawPoint>, delimiters: seq<real>): (r: Option<Range>)
    requires 1 <= |pts|
    ensures r.None? <==> |pts[0].values| == 0
    ensures r.Some? ==> r.value.lo <= pts[0].values[0] <= r.value.hi
    ensures r.Some? ==> forall j, i | 0 <= j < |pts| && 0 <= i < |pts[j].values| ::
                          r.value.lo <= Scaled(pts[j], delimiters, i) <= r.value.hi
    ensures r.Some? ==> r.value.lo == pts[0].values[0] || IsScaledValue(pts, delimiters, r.value.lo)
    ensures r.Some? ==> r.value.hi == pts[0].values[0] || IsScaledValue(pts, delimiters, r.value.hi)
  {
    if |pts[0].values| == 0 then None
    else
      var s := AllScaled(pts, delimiters);
      var v0 := pts[0].values[0];
      var lo := Lowest(v0, s);
      var hi := Highest(v0, s);
      assert forall j, i | 0 <= j < |pts| && 0 <= i < |pts[j].values| :: lo <= Scaled(pts[j], delimiters, i) <= hi by {
        forall j, i | 0 <= j < |pts| && 0 <= i < |pts[j].values|
          ensures lo <= Scaled(pts[j], delimiters, i) <= hi
        {
          AllScaledMembers(pts, delimiters, Scaled(pts[j], delimiters, i));
        }
      }
      AllScaledMembers(pts, delimiters, lo);
      AllScaledMembers(pts, delimiters, hi);
      Some(Range(lo, hi))
  }

  /**
   * When the first raw value lies within the scaled values' span, the axis
   * range is exactly their minimum and maximum.
   */
  lemma ExtremesAreMinMax(pts: seq<RawPoint>, delimiters: seq<real>, lo: real, hi: real)
    requires 1 <= |pts| && 1 <= |pts[0].values|
    requires forall j, i | 0 <= j < |pts| && 0 <= i < |pts[j].values| :: lo <= Scaled(pts[j], delimiters, i) <= hi
    requires IsScaledValue(pts, delimiters, lo) && IsScaledValue(pts, delimiters, hi)
    requires lo <= pts[0].values[0] <= hi
    ensures Extremes(pts, delimiters) == Some(Range(lo, hi))
  {
    ExtremesLowIs(pts, delimiters, lo);
    ExtremesHighIs(pts, delimiters, hi);
  }

  lemma ExtremesLowIs(pts: seq<RawPoint>, delimiters: seq<real>, lo: real)
    requires 1 <= |pts| && 1 <= |pts[0].values|
    requires forall j, i | 0 <= j < |pts| && 0 <= i < |pts[j].values| :: lo <= Scaled(pts[j], delimiters, i)
    requires IsScaledValue(pts, delimiters, lo) && lo <= pts[0].values[0]
    ensures Extremes(pts, delimiters).value.lo == lo
  {
    var g := Extremes(pts, delimiters).value;
    var jl, il :| 0 <= jl < |pts| && 0 <= il < |pts[jl].values| && lo == Scaled(pts[jl], delimiters, il);
    assert g.lo <= Scaled(pts[jl], delimiters, il);
    if g.lo != pts[0].values[0] {
      var j, i :| 0 <= j < |pts| && 0 <= i < |pts[j].values| && g.lo == Scaled(pts[j], delimiters, i);
      assert lo <= Scaled(pts[j], delimiters, i);
    }
  }

  lemma ExtremesHighIs(pts: seq<RawPoint>, delimiters: seq<real>, hi: real)
    requires 1 <= |pts| && 1 <= |pts[0].values|
    requires forall j, i | 0 <= j < |pts| && 0 <= i < |pts[j].values| :: Scaled(pts[j], delimiters, i) <= hi
    requires IsScaledValue(pts, delimiters, hi) && pts[0].values[0] <= hi
    ensures Extremes(pts, delimiters).value.hi == hi
  {
    var g := Extremes(pts, delimiters).value;
    var jh, ih :| 0 <= jh < |pts| && 0 <= ih < |pts[jh].values| && hi == Scaled(pts[jh], delimiters, ih);
    assert Scaled(pts[jh], delimiters, ih) <= g.hi;
    if g.hi != pts[0].values[0] {
      var j, i :| 0 <= j < |pts| && 0 <= i < |pts[j].values| && g.hi == Scaled(pts[j], delimiters, i);
      assert Scaled(pts[j], delimiters, i) <= hi;
    }
  }

  /**
   * The raw starting value can widen the axis: with a divisor on the first
   * series, `maxY` keeps a raw value no plotted (scaled) value reaches.
   */
  lemma RawStartWidensRange()
    ensures Extremes([RawPoint(0, [80.0])], [2.0]) == Some(Range(40.0, 80.0))
    ensures !IsScaledValue([RawPoint(0, [80.0])], [2.0], 80.0)
  {
    var pts := [RawPoint(0, [80.0])];
    assert Scaled(pts[0], [2.0], 0) == 40.0;
    assert AllScaled(pts, [2.0]) == [40.0] by {
      assert pts[1..] == [];
    }
  }
}
