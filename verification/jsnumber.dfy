/**
 * The number-to-integer conversions the chart uses, on exact reals.
 *
 * `~~v` in the source is ToInt32 (section 7.1.6 of ECMA-262): NaN and the
 * infinities become 0, a finite value is truncated toward zero and then
 * reduced modulo 2^32 into the signed 32-bit range.
 *
 * The functions carry no postconditions of their own; their facts are
 * lemmas, called where a proof needs them, so that proofs about pixel
 * arithmetic do not drag these facts along.
 */
module JsNumber {

  const TWO_31: int := 0x8000_0000
  const TWO_32: int := 0x1_0000_0000

  /** The integer part of a number, rounding toward zero. */
  function Trunc(r: real): int
  {
    if r < 0.0 then -((-r).Floor) else r.Floor
  }

  /** Reduction of an integer into the signed 32-bit range. */
  function Wrap32(k: int): int
  {
    (k + TWO_31) % TWO_32 - TWO_31
  }

  /** ToInt32 of a finite number. */
  function ToInt32(r: real): int
  {
    Wrap32(Trunc(r))
  }

  /**
   * `~~(n / d)`. A zero divisor yields NaN (when n is 0) or an infinity,
   * and ToInt32 sends all three to 0.
   */
  function TruncDiv(n: real, d: real): int
  {
    if d == 0.0 then 0 else ToInt32(n / d)
  }

  /** Trunc rounds toward zero and lands within 1 of its argument. */
  lemma TruncBounds(r: real)
    ensures 0.0 <= r ==> 0 <= Trunc(r) && Trunc(r) as real <= r < Trunc(r) as real + 1.0
    ensures r < 0.0 ==> Trunc(r) <= 0 && Trunc(r) as real - 1.0 < r <= Trunc(r) as real
  {
  }

  lemma TruncMonotone(a: real, b: real)
    requires a <= b
    ensures Trunc(a) <= Trunc(b)
  {
    TruncBounds(a);
    TruncBounds(b);
  }

  lemma TruncOfInt(k: int)
    ensures Trunc(k as real) == k
  {
  }

  /** Wrap32 lands in the signed 32-bit range, agrees with its argument modulo 2^32, and keeps 32-bit values. */
  lemma Wrap32Range(k: int)
    ensures -TWO_31 <= Wrap32(k) < TWO_31
    ensures (Wrap32(k) - k) % TWO_32 == 0
    ensures -TWO_31 <= k < TWO_31 ==> Wrap32(k) == k
  {
  }

  /** Inside the 32-bit range ToInt32 is plain truncation. */
  lemma ToInt32Small(r: real)
    requires -(TWO_31 as real) < r < TWO_31 as real
    ensures ToInt32(r) == Trunc(r)
  {
    TruncBounds(r);
    Wrap32Range(Trunc(r));
  }

  /** `~~(n / d)` for a nonzero divisor and a quotient inside the 32-bit range. */
  lemma TruncDivSmall(n: real, d: real)
    requires d != 0.0 && -(TWO_31 as real) < n / d < TWO_31 as real
    ensures TruncDiv(n, d) == Trunc(n / d)
  {
    ToInt32Small(n / d);
  }

  /**
   * A product kept as one term, so that proofs which mention it never have to
   * reconcile two spellings of the same nonlinear expression.
   */
  function Mul(a: real, b: real): real
  {
    a * b
  }

  /** Multiplying by a nonnegative factor keeps order. */
  lemma MulMonotone(q: real, a: real, b: real)
    requires 0.0 <= q && a <= b
    ensures Mul(q, a) <= Mul(q, b)
  {
    assert q * (b - a) >= 0.0;
  }

  /** `q * i` for whole steps `i`: zero at the start, `n * q` after `n` steps, and one `q` per step. */
  lemma MulSteps(q: real, i: int)
    ensures Mul(q, 0.0) == 0.0
    ensures Mul(q, i as real) - Mul(q, (i - 1) as real) == q
  {
  }

  /** `~~(a * p / d)`: the whole part of the share of `p` that `a` takes out of `d`. */
  function Scale(a: real, p: real, d: real): int
  {
    TruncDiv(Mul(a, p), d)
  }

  /** Scaling a sub-interval of `[0, d]` by `p / d` lands in `[0, p]`, in order. */
  lemma ProportionBetween(a: real, b: real, p: real, d: real)
    requires 0.0 <= a <= b <= d && 0.0 < d && 0.0 <= p
    ensures 0.0 <= Mul(a, p) / d <= Mul(b, p) / d <= p
  {
    assert 0.0 <= a * p;
    assert (b - a) * p >= 0.0;
    assert a * p <= b * p;
    assert (d - b) * p >= 0.0;
    assert b * p <= d * p;
    assert d * p / d == p;
  }

  /** Scale is monotone in its first argument on `[0, d]` and stays in `[0, p]` for a whole `p`. */
  lemma ScaleBetween(a: real, b: real, p: int, d: real)
    requires 0.0 <= a <= b <= d && 0.0 < d && 0 <= p < TWO_31
    ensures 0 <= Scale(a, p as real, d) <= Scale(b, p as real, d) <= p
  {
    ProportionBetween(a, b, p as real, d);
    var q := Mul(a, p as real) / d;
    var q' := Mul(b, p as real) / d;
    TruncDivSmall(Mul(a, p as real), d);
    TruncDivSmall(Mul(b, p as real), d);
    TruncBounds(q);
    TruncMonotone(q, q');
    TruncMonotone(q', p as real);
    TruncOfInt(p);
  }

  /** Truncation toward zero commutes with negation. */
  lemma TruncNegate(r: real)
    ensures Trunc(-r) == -Trunc(r)
  {
  }

  /**
   * A negative `p` (a plot narrower than its margins) mirrors the share:
   * monotone the other way, and within `[p, 0]`.
   */
  lemma ScaleBetweenReversed(a: real, b: real, p: int, d: real)
    requires 0.0 <= a <= b <= d && 0.0 < d && -TWO_31 < p <= 0
    ensures p <= Scale(b, p as real, d) <= Scale(a, p as real, d) <= 0
  {
    ScaleBetween(a, b, -p, d);
    ProportionBetween(a, b, (-p) as real, d);
    ScaleNegate(a, p, d);
    ScaleNegate(b, p, d);
  }

  /** Negating a share's amount negates its whole part, while the quotient fits in 32 bits. */
  lemma ScaleNegate(a: real, p: int, d: real)
    requires 0.0 < d && -TWO_31 < p < TWO_31 && -(TWO_31 as real) < Mul(a, (-p) as real) / d < TWO_31 as real
    ensures Scale(a, p as real, d) == -Scale(a, (-p) as real, d)
  {
    var q := Mul(a, (-p) as real) / d;
    assert Mul(a, p as real) / d == -q;
    TruncDivSmall(Mul(a, (-p) as real), d);
    TruncDivSmall(Mul(a, p as real), d);
    TruncNegate(q);
  }

  /** The whole of `d` takes all of a 32-bit `p`. */
  lemma ScaleFull(p: int, d: real)
    requires d != 0.0 && -TWO_31 < p < TWO_31
    ensures Scale(d, p as real, d) == p
  {
    assert Mul(d, p as real) / d == p as real;
    TruncDivSmall(Mul(d, p as real), d);
    TruncOfInt(p);
  }

  /** None of `d` takes nothing; neither does anything out of a zero `d` (NaN or an infinity). */
  lemma ScaleNothing(a: real, p: real, d: real)
    ensures Scale(0.0, p, d) == 0
    ensures Scale(a, p, 0.0) == 0
  {
    assert Mul(0.0, p) == 0.0;
    if d != 0.0 {
      assert Mul(0.0, p) / d == 0.0;
      TruncOfInt(0);
      Wrap32Range(0);
    }
  }

  /** Scale keeps the order of nonnegative shares while the larger quotient fits in 32 bits. */
  lemma ScaleMonotone(a: real, b: real, p: real, d: real)
    requires 0.0 <= a <= b && 0.0 < d && 0.0 <= p && Mul(b, p) / d < TWO_31 as real
    ensures 0 <= Scale(a, p, d) <= Scale(b, p, d)
  {
    assert 0.0 <= a * p <= b * p by {
      assert (b - a) * p >= 0.0;
    }
    assert 0.0 <= Mul(a, p) / d <= Mul(b, p) / d;
    TruncDivSmall(Mul(a, p), d);
    TruncDivSmall(Mul(b, p), d);
    TruncBounds(Mul(a, p) / d);
    TruncMonotone(Mul(a, p) / d, Mul(b, p) / d);
  }

  /** A nonnegative share reaches one whole unit exactly when `a * p` reaches `d`. */
  lemma ScaleAtLeastOne(a: real, p: real, d: real)
    requires 0.0 <= a && 0.0 < d && 0.0 <= p && Mul(a, p) / d < TWO_31 as real
    ensures Scale(a, p, d) >= 1 <==> Mul(a, p) >= d
  {
    assert 0.0 <= a * p;
    TruncDivSmall(Mul(a, p), d);
    TruncBounds(Mul(a, p) / d);
    var n := Mul(a, p);
    assert n / d * d == n;
    if n >= d {
      assert n / d >= 1.0;
    }
    if n / d >= 1.0 {
      assert n / d * d >= 1.0 * d;
    }
  }

  /** A share of a nonpositive amount is never positive while it fits in 32 bits. */
  lemma ScaleNonPositive(a: real, p: real, d: real)
    requires a <= 0.0 && 0.0 < d && 0.0 <= p && -(TWO_31 as real) < Mul(a, p) / d
    ensures Scale(a, p, d) <= 0
  {
    assert a * p <= 0.0 by {
      assert (-a) * p >= 0.0;
    }
    assert Mul(a, p) / d <= 0.0;
    TruncDivSmall(Mul(a, p), d);
    TruncBounds(Mul(a, p) / d);
  }
}
