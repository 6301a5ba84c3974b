/** Shared vocabulary of the choreography model: optional values, 3-vectors
    over `real`, and the linear interpolation every smoother in the scene is
    built from (`lerp(a, b, t) = a + (b - a) * t`, the helper the components
    import from their math utilities and the one three.js uses for
    `MathUtils.lerp` and `Vector3.lerp`). */
module Common {

  datatype Option<+T> = None | Some(value: T)

  /** A point, offset or uniform scale triple in scene units. */
  datatype Vec3 = Vec3(x: real, y: real, z: real)

  const Origin: Vec3 := Vec3(0.0, 0.0, 0.0)

  /** `Math.PI`, as the shortest decimal that reads back as that double.
      The double itself is 3.141592653589793115997963…; the difference
      (about 1.2e-16) does not matter to any property stated here. */
  const Pi: real := 3.141592653589793

  const TwoPi: real := 2.0 * Pi

  function Lerp(a: real, b: real, t: real): real {
    a + (b - a) * t
  }

  /** Component-wise interpolation (`Vector3.lerp` / `lerpVectors`). */
  function LerpVec(a: Vec3, b: Vec3, t: real): Vec3 {
    Vec3(Lerp(a.x, b.x, t), Lerp(a.y, b.y, t), Lerp(a.z, b.z, t))
  }

  function Abs(x: real): real {
    if x < 0.0 then -x else x
  }

  /** `Math.min` on two reals. */
  function MinReal(a: real, b: real): (m: real)
    ensures m <= a && m <= b
    ensures m == a || m == b
  {
    if a <= b then a else b
  }

  /** `MathUtils.clamp(v, lo, hi)`, written as three.js writes it:
      `max(lo, min(hi, v))`. */
  function Clamp(v: real, lo: real, hi: real): (c: real)
    requires lo <= hi
    ensures lo <= c <= hi
    ensures lo <= v <= hi ==> c == v
    ensures v < lo ==> c == lo
    ensures hi < v ==> c == hi
  {
    if hi < v then hi else if v < lo then lo else v
  }

  /** `x` lies on the closed segment between `a` and `b`, in either order. */
  predicate Between(a: real, x: real, b: real) {
    (a <= x <= b) || (b <= x <= a)
  }

  /** Scaling a non-negative length by a factor in [0, 1] keeps it within
      [0, length]. */
  lemma ScaleByUnit(c: real, t: real)
    requires 0.0 <= c
    requires 0.0 <= t <= 1.0
    ensures 0.0 <= c * t <= c
  {
    assert c - c * t == c * (1.0 - t);
  }

  lemma PositiveProduct(a: real, b: real)
    requires 0.0 < a && 0.0 < b
    ensures 0.0 < a * b
  {
  }

  /** Interpolating with a factor in [0, 1] never leaves the segment between
      the two end points. */
  lemma LerpBetween(a: real, b: real, t: real)
    requires 0.0 <= t <= 1.0
    ensures Between(a, Lerp(a, b, t), b)
  {
    var step := (b - a) * t;
    assert Lerp(a, b, t) == a + step;
    if a <= b {
      ScaleByUnit(b - a, t);
      assert a <= a + step <= b;
    } else {
      ScaleByUnit(a - b, t);
      assert step == -((a - b) * t);
      assert b <= a + step <= a;
    }
  }

  /** Interpolating by `t` leaves exactly the fraction `1 - t` of the
      distance to the goal, for any factor. */
  lemma LerpRemainder(a: real, b: real, t: real)
    ensures Lerp(a, b, t) - b == (a - b) * (1.0 - t)
  {
  }

  /** `next` is one easing step from `a` toward `goal` with factor `t`: it
      keeps the fraction `1 - t` of the distance, lies on the segment, and
      is no farther from the goal. */
  predicate Eased(a: real, next: real, goal: real, t: real) {
    && next - goal == (a - goal) * (1.0 - t)
    && Between(a, next, goal)
    && Abs(next - goal) <= Abs(a - goal)
  }

  /** Every interpolation with a factor in [0, 1] is an easing step. */
  lemma Ease(a: real, b: real, t: real)
    requires 0.0 <= t <= 1.0
    ensures Eased(a, Lerp(a, b, t), b, t)
  {
    LerpContracts(a, b, t);
    LerpBetween(a, b, t);
  }

  /** The distance left to the goal shrinks by exactly the factor `1 - t`:
      a factor in [0, 1] never moves away from the goal. */
  lemma LerpContracts(a: real, b: real, t: real)
    requires 0.0 <= t <= 1.0
    ensures Lerp(a, b, t) - b == (a - b) * (1.0 - t)
    ensures Abs(Lerp(a, b, t) - b) <= Abs(a - b)
  {
    var d := a - b;
    assert Lerp(a, b, t) - b == d * (1.0 - t);
    if d >= 0.0 {
      ScaleByUnit(d, 1.0 - t);
    } else {
      ScaleByUnit(-d, 1.0 - t);
      assert d * (1.0 - t) == -((-d) * (1.0 - t));
    }
  }
}
