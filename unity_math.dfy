/**
 * The few UnityEngine.Mathf helpers the gesture code relies on, over exact reals:
 * Clamp01, Lerp (whose interpolation factor is clamped to [0,1]), InverseLerp,
 * Abs and Max.
 */
module UnityMath {

  /** x lies in the closed unit interval. */
  predicate InUnit(x: real) {
    0.0 <= x <= 1.0
  }

  /** x lies on the closed segment between a and b, in either order. */
  predicate Between(x: real, a: real, b: real) {
    (a <= x <= b) || (b <= x <= a)
  }

  function Min(a: real, b: real): real { if a <= b then a else b }

  /** Mathf.Max for two values. */
  function Max(a: real, b: real): (r: real)
    ensures r >= a && r >= b && (r == a || r == b)
  {
    if a >= b then a else b
  }

  /** Mathf.Abs. */
  function Abs(x: real): (r: real)
    ensures r >= 0.0 && (r == x || r == -x)
  {
    if x < 0.0 then -x else x
  }

  /** Mathf.Clamp01: the nearest point of [0,1]. */
  function Clamp01(x: real): (r: real)
    ensures InUnit(r)
    ensures InUnit(x) ==> r == x
  {
    if x < 0.0 then 0.0 else if x > 1.0 then 1.0 else x
  }

  /** Mathf.Lerp: a + (b - a) * Clamp01(t), written by the cases of the clamp; never leaves the segment [a, b]. */
  function Lerp(a: real, b: real, t: real): (r: real)
    ensures Between(r, a, b)
    ensures t <= 0.0 ==> r == a
    ensures t >= 1.0 ==> r == b
  {
    if t <= 0.0 then a
    else if t >= 1.0 then b
    else
      var d := b - a;
      ScaleBetween(d, t);
      var m := d * t;
      assert Between(m, 0.0, d);
      assert a + d == b;
      a + m
  }

  lemma ScaleBetween(d: real, c: real)
    requires InUnit(c)
    ensures Between(d * c, 0.0, d)
    ensures c == 0.0 ==> d * c == 0.0
    ensures c == 1.0 ==> d * c == d
  {
    if d >= 0.0 {
      assert d * (1.0 - c) >= 0.0;
      assert d * c >= 0.0;
    } else {
      assert d * (1.0 - c) <= 0.0;
      assert d * c <= 0.0;
    }
  }

  /** Mathf.InverseLerp: where v lies between a and b as a fraction in [0,1]; 0 when a == b. */
  function InverseLerp(a: real, b: real, v: real): (r: real)
    ensures InUnit(r)
  {
    if a != b then Clamp01((v - a) / (b - a)) else 0.0
  }

  /** A point between two values of the unit interval is itself in the unit interval. */
  lemma BetweenUnit(x: real, a: real, b: real)
    requires Between(x, a, b) && InUnit(a) && InUnit(b)
    ensures InUnit(x)
  {
  }

  /** With a ≤ b as factors, Lerp moves from a no further than with b. */
  lemma LerpFactorOrder(a: real, b: real, t1: real, t2: real)
    requires t1 <= t2
    ensures Between(Lerp(a, b, t1), a, Lerp(a, b, t2))
  {
    if 0.0 < t1 < 1.0 && 0.0 < t2 < 1.0 {
      var d := b - a;
      if d >= 0.0 {
        assert d * (t2 - t1) >= 0.0;
      } else {
        assert d * (t2 - t1) <= 0.0;
      }
    }
  }

  /**
   * InverseLerp from hi down to lo, the way the distance-to-strength conversions use it:
   * 1 at or below lo, 0 at or above hi, and the linear fraction (hi - d) / (hi - lo) between.
   */
  lemma InverseLerpDescending(hi: real, lo: real, d: real)
    requires lo < hi
    ensures d <= lo ==> InverseLerp(hi, lo, d) == 1.0
    ensures d >= hi ==> InverseLerp(hi, lo, d) == 0.0
    ensures lo < d < hi ==> InverseLerp(hi, lo, d) == (hi - d) / (hi - lo)
  {
    var q := (d - hi) / (lo - hi);
    assert q == (hi - d) / (hi - lo);
    assert q * (hi - lo) == hi - d;
    if d <= lo {
      assert hi - d >= hi - lo;
      assert q >= 1.0;
    } else if d >= hi {
      assert q <= 0.0;
    } else {
      assert 0.0 < q < 1.0;
    }
  }
}

