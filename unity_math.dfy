/** An optional value: a missing engine object (no rigidbody, no target, a ray that hit nothing). */
module Options {
  datatype Option<+T> = None | Some(value: T)
}

/**
 * The parts of Unity's Mathf that the controllers call, with Unity's own
 * semantics, over mathematical reals (IEEE rounding is not modelled).
 */
module UnityMath {

  /** x lies on the closed segment between a and b, in either order. */
  predicate Between(a: real, b: real, x: real) {
    (a <= x <= b) || (b <= x <= a)
  }

  function Abs(f: real): (r: real)
    ensures r >= 0.0 && (r == f || r == -f)
  {
    if f >= 0.0 then f else -f
  }

  /** Mathf.Sign: zero counts as positive, so the result is never 0. */
  function Sign(f: real): (r: real)
    ensures r == 1.0 || r == -1.0
    ensures r == 1.0 <==> f >= 0.0
  {
    if f >= 0.0 then 1.0 else -1.0
  }

  function Max(a: real, b: real): (r: real)
    ensures r >= a && r >= b && (r == a || r == b)
  {
    if a > b then a else b
  }

  /** Mathf.Clamp on floats: the lower bound is tested first. */
  function Clamp(v: real, lo: real, hi: real): (r: real)
    ensures lo <= hi ==> lo <= r <= hi
    ensures lo <= v <= hi ==> r == v
  {
    if v < lo then lo else if v > hi then hi else v
  }

  function Clamp01(v: real): (r: real)
    ensures 0.0 <= r <= 1.0
    ensures 0.0 <= v <= 1.0 ==> r == v
  {
    Clamp(v, 0.0, 1.0)
  }

  /** Mathf.Lerp: the interpolation parameter is clamped to [0, 1]. */
  function Lerp(a: real, b: real, t: real): (r: real)
    ensures Between(a, b, r)
    ensures t <= 0.0 ==> r == a
    ensures t >= 1.0 ==> r == b
  {
    var u := Clamp01(t);
    InterpolateWithin(a, b, u);
    a + (b - a) * u
  }

  lemma InterpolateWithin(a: real, b: real, u: real)
    requires 0.0 <= u <= 1.0
    ensures Between(a, b, a + (b - a) * u)
  {
    if a <= b {
      OffsetWithin(a, b - a, u);
    } else {
      OffsetWithin(b, a - b, 1.0 - u);
      assert (a - b) * (1.0 - u) == (a - b) - (a - b) * u;
      assert (b - a) * u == -((a - b) * u);
    }
  }

  /** Moving from lo by a fraction u of a non-negative width d stays within [lo, lo + d]. */
  lemma OffsetWithin(lo: real, d: real, u: real)
    requires d >= 0.0 && 0.0 <= u <= 1.0
    ensures lo <= lo + d * u <= lo + d
  {
    ScaleWithin(d, u);
  }

  lemma ScaleWithin(x: real, u: real)
    requires x >= 0.0 && 0.0 <= u <= 1.0
    ensures 0.0 <= x * u <= x
  {
    assert x * (1.0 - u) >= 0.0;
  }

  lemma ScaleMonotone(x: real, f: real, g: real)
    requires x >= 0.0 && f <= g
    ensures x * f <= x * g
  {
    assert x * (g - f) >= 0.0;
  }

  lemma ScaleStrict(x: real, f: real, g: real)
    requires x > 0.0 && f < g
    ensures x * f < x * g
  {
    assert x * (g - f) > 0.0;
  }

  lemma ProductNonNegative(x: real, y: real)
    requires x >= 0.0 && y >= 0.0
    ensures x * y >= 0.0
  {
    ScaleMonotone(x, 0.0, y);
  }

  lemma ProductPositive(x: real, y: real)
    requires x > 0.0 && y > 0.0
    ensures x * y > 0.0
  {
  }

  /** A quotient by a positive number keeps the sign of the dividend. */
  lemma QuotientSign(a: real, m: real)
    requires m > 0.0
    ensures a > 0.0 ==> a / m > 0.0
    ensures a < 0.0 ==> a / m < 0.0
    ensures a == 0.0 ==> a / m == 0.0
  {
    assert (a / m) * m == a;
  }

  lemma QuotientAtLeastOne(n: real, d: real)
    requires 0.0 < d <= n
    ensures n / d >= 1.0
  {
    assert (n / d) * d == n;
  }

  /** Mathf.InverseLerp: where v sits between a and b, clamped to [0, 1]; 0 when a == b. */
  function InverseLerp(a: real, b: real, v: real): (r: real)
    ensures 0.0 <= r <= 1.0
    ensures a < b && v <= a ==> r == 0.0
    ensures a < b && v >= b ==> r == 1.0
  {
    if a != b then
      var q := (v - a) / (b - a);
      assert a < b && v >= b ==> q >= 1.0 by {
        if a < b && v >= b { QuotientAtLeastOne(v - a, b - a); }
      }
      assert a < b && v <= a ==> q <= 0.0 by {
        if a < b && v <= a { QuotientSign(v - a, b - a); }
      }
      Clamp01(q)
    else 0.0
  }

  /**
   * Mathf.MoveTowards: step from current toward target by at most maxDelta,
   * landing exactly on target when it is within reach. Out of reach it adds
   * Mathf.Sign(target - current) * maxDelta, written here by the sign of
   * target - current (MoveTowardsSignForm shows the two agree).
   */
  function MoveTowards(current: real, target: real, maxDelta: real): real {
    if Abs(target - current) <= maxDelta then target
    else if target - current >= 0.0 then current + maxDelta
    else current - maxDelta
  }

  /** Out of reach, MoveTowards adds Mathf.Sign(target - current) * maxDelta, as Unity writes it. */
  lemma MoveTowardsSignForm(current: real, target: real, maxDelta: real)
    requires Abs(target - current) > maxDelta
    ensures MoveTowards(current, target, maxDelta) == current + Sign(target - current) * maxDelta
  {
    if target - current >= 0.0 {
      assert Sign(target - current) == 1.0;
    } else {
      assert Sign(target - current) == -1.0;
    }
  }

  /**
   * With a non-negative step, MoveTowards never overshoots: the result lies
   * between current and target, moved by at most maxDelta, and is no farther
   * from target than current was; it is target exactly when target is in reach.
   */
  lemma MoveTowardsApproaches(current: real, target: real, maxDelta: real)
    requires maxDelta >= 0.0
    ensures var r := MoveTowards(current, target, maxDelta);
            Between(current, target, r) &&
            Abs(r - current) <= maxDelta &&
            Abs(r - target) <= Abs(current - target) &&
            (r == target <==> Abs(target - current) <= maxDelta)
  {
  }

  /** A step of at least delta closes the gap to target by delta, or closes it completely. */
  lemma MoveTowardsCloses(current: real, target: real, maxDelta: real, delta: real)
    requires 0.0 <= delta <= maxDelta
    ensures Abs(MoveTowards(current, target, maxDelta) - target) <= Max(0.0, Abs(current - target) - delta)
  {
  }

  /** Mathf.Clamp on ints: the lower bound is tested first. */
  function ClampInt(v: int, lo: int, hi: int): (r: int)
    ensures lo <= hi ==> lo <= r <= hi
    ensures v < lo ==> r == lo
    ensures lo <= v <= hi ==> r == v
  {
    if v < lo then lo else if v > hi then hi else v
  }

  /**
   * Mathf.Max on ints (the overload VehicleHealth.TakeDamage calls); Max above
   * is the float overload, and Dafny has no overloading on int and real.
   */
  function MaxInt(a: int, b: int): (r: int)
    ensures r >= a && r >= b && (r == a || r == b)
  {
    if a > b then a else b
  }

  /** Mathf.FloorToInt, without the 32-bit range of the cast. */
  function FloorToInt(f: real): (r: int)
    ensures r as real <= f < r as real + 1.0
  {
    f.Floor
  }
}
