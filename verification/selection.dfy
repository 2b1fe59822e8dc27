/**
 * `filterPoints` (tinyChart.js and demo.js): after a drag the chart keeps the
 * points whose pixel X falls inside the dragged band, unless that would leave
 * nothing, in which case it keeps what it had.
 */
module Selection {

  import opened Series
  import opened Mapping

  /** `a` can be obtained from `b` by deleting elements, keeping the order of the rest. */
  predicate Subseq<T(==)>(a: seq<T>, b: seq<T>)
    decreases |b|
  {
    a == [] || (b != [] && (Subseq(a, b[1..]) || (a[0] == b[0] && Subseq(a[1..], b[1..]))))
  }

  lemma {:induction false} SubseqRefl<T>(a: seq<T>)
    ensures Subseq(a, a)
    decreases |a|
  {
    if a != [] {
      SubseqRefl(a[1..]);
    }
  }

  lemma {:induction false} SubseqTrans<T>(a: seq<T>, b: seq<T>, c: seq<T>)
    requires Subseq(a, b) && Subseq(b, c)
    ensures Subseq(a, c)
    decreases |c|
  {
    if a != [] {
      assert b != [] && c != [];
      if Subseq(b, c[1..]) {
        SubseqTrans(a, b, c[1..]);
      } else if Subseq(a, b[1..]) {
        SubseqTrans(a, b[1..], c[1..]);
      } else {
        SubseqTrans(a[1..], b[1..], c[1..]);
      }
    }
  }

  /** A subsequence is never longer, and everything in it comes from the original. */
  lemma {:induction false} SubseqElements<T>(a: seq<T>, b: seq<T>)
    requires Subseq(a, b)
    ensures |a| <= |b|
    ensures forall x :: x in a ==> x in b
    decreases |b|
  {
    if a != [] {
      if Subseq(a, b[1..]) {
        SubseqElements(a, b[1..]);
      } else {
        SubseqElements(a[1..], b[1..]);
        assert a == [a[0]] + a[1..];
      }
    }
  }

  /** The band between the two selector edges: `x1` is the smaller edge, `x2` the larger. */
  function Bounds(recX1: real, recX2: real): (r: (real, real))
    ensures r.0 <= r.1
    ensures {r.0, r.1} == {recX1, recX2}
  {
    var x1 := if recX1 < recX2 then recX1 else recX2;
    var x2 := if recX1 > recX2 then recX1 else recX2;
    (x1, x2)
  }

  /** `point.x >= x1 && point.x <= x2` */
  predicate InBand(p: MappedPoint, x1: real, x2: real)
  {
    x1 <= p.x as real <= x2
  }

  /** `points.filter(point => point.x >= x1 && point.x <= x2)` */
  function Keep(m: seq<MappedPoint>, x1: real, x2: real): seq<MappedPoint>
  {
    if m == [] then []
    else if InBand(m[0], x1, x2) then [m[0]] + Keep(m[1..], x1, x2)
    else Keep(m[1..], x1, x2)
  }

  /**
   * A point survives the filter exactly when it was there and lies in the
   * band, and it survives as many times as it occurred.
   */
  lemma {:induction false} KeepMembers(m: seq<MappedPoint>, x1: real, x2: real, p: MappedPoint)
    ensures p in Keep(m, x1, x2) <==> p in m && InBand(p, x1, x2)
    ensures multiset(Keep(m, x1, x2))[p] == if InBand(p, x1, x2) then multiset(m)[p] else 0
  {
    if m != [] {
      KeepMembers(m[1..], x1, x2, p);
      assert m == [m[0]] + m[1..];
      assert multiset(m) == multiset{m[0]} + multiset(m[1..]);
      if InBand(m[0], x1, x2) {
        assert multiset(Keep(m, x1, x2)) == multiset{m[0]} + multiset(Keep(m[1..], x1, x2));
      }
    }
  }

  /** The filter keeps the surviving points in their original order. */
  lemma {:induction false} KeepSubseq(m: seq<MappedPoint>, x1: real, x2: real)
    ensures Subseq(Keep(m, x1, x2), m)
    ensures Subseq(Points(Keep(m, x1, x2)), Points(m))
  {
    if m != [] {
      KeepSubseq(m[1..], x1, x2);
      var k := Keep(m[1..], x1, x2);
      assert Points(m)[1..] == Points(m[1..]);
      if InBand(m[0], x1, x2) {
        assert ([m[0]] + k)[1..] == k;
        assert Points([m[0]] + k)[1..] == Points(k);
      }
    }
  }

  /** Filtering what already lies in the band changes nothing. */
  lemma {:induction false} KeepAllInBand(m: seq<MappedPoint>, x1: real, x2: real)
    requires forall j :: 0 <= j < |m| ==> InBand(m[j], x1, x2)
    ensures Keep(m, x1, x2) == m
  {
    if m != [] {
      KeepAllInBand(m[1..], x1, x2);
      assert m == [m[0]] + m[1..];
    }
  }

  /**
   * `filterPoints()`: the points inside the band between the selector edges,
   * or the unchanged list when none are.
   */
  function FilterPoints(m: seq<MappedPoint>, recX1: real, recX2: real): (r: seq<MappedPoint>)
    ensures Keep(m, Bounds(recX1, recX2).0, Bounds(recX1, recX2).1) == [] ==> r == m
  {
    var b := Bounds(recX1, recX2);
    var kept := Keep(m, b.0, b.1);
    if |kept| > 0 then kept else m
  }

  /**
   * The filtered list is never empty when its input was not and keeps input
   * order. When some point lies in the band it is exactly the in-band points,
   * each as often as it occurred; when none does it is the input unchanged.
   */
  lemma FilterPointsSpec(m: seq<MappedPoint>, recX1: real, recX2: real)
    ensures var r := FilterPoints(m, recX1, recX2);
            && (m != [] ==> r != [])
            && Subseq(r, m)
            && Subseq(Points(r), Points(m))
    ensures var r := FilterPoints(m, recX1, recX2);
            var b := Bounds(recX1, recX2);
            (exists p :: p in m && InBand(p, b.0, b.1)) ==>
              && r == Keep(m, b.0, b.1)
              && forall p :: multiset(r)[p] == if InBand(p, b.0, b.1) then multiset(m)[p] else 0
    ensures var b := Bounds(recX1, recX2);
            (forall p :: p in m ==> !InBand(p, b.0, b.1)) ==> FilterPoints(m, recX1, recX2) == m
  {
    var b := Bounds(recX1, recX2);
    var kept := Keep(m, b.0, b.1);
    KeepSubseq(m, b.0, b.1);
    SubseqRefl(m);
    SubseqRefl(Points(m));
    forall p {
      KeepMembers(m, b.0, b.1, p);
    }
    if exists p :: p in m && InBand(p, b.0, b.1) {
      var p :| p in m && InBand(p, b.0, b.1);
      assert p in kept;
    }
    if kept != [] {
      assert kept[0] in kept;
    }
  }

  /** Which edge was pressed first does not matter. */
  lemma FilterPointsSymmetric(m: seq<MappedPoint>, recX1: real, recX2: real)
    ensures FilterPoints(m, recX1, recX2) == FilterPoints(m, recX2, recX1)
  {
    assert Bounds(recX1, recX2) == Bounds(recX2, recX1);
  }

  /** A second filter with the same band is a no-op. */
  lemma FilterPointsIdempotent(m: seq<MappedPoint>, recX1: real, recX2: real)
    ensures FilterPoints(FilterPoints(m, recX1, recX2), recX1, recX2) == FilterPoints(m, recX1, recX2)
  {
    var b := Bounds(recX1, recX2);
    var kept := Keep(m, b.0, b.1);
    if |kept| > 0 {
      forall j | 0 <= j < |kept|
        ensures InBand(kept[j], b.0, b.1)
      {
        KeepMembers(m, b.0, b.1, kept[j]);
      }
      KeepAllInBand(kept, b.0, b.1);
    }
  }
}
