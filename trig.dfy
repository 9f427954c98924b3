/** The `Trig` helpers of src/utils/Trig.ts.

    JavaScript's `Math.PI`, `Math.atan2`, `Math.sin`, `Math.cos` and
    `Math.hypot` are not definable over the reals in Dafny, so they are
    carried as the fields of a `Math` value, and what the widget relies on
    about them is stated as laws (ghost predicates).  A lemma requires only
    the laws it uses; the real functions satisfy all of them. */
module Trig {

  datatype TrigOps = TrigOps(
    PI: real,
    atan2: (real, real) -> real,
    sin: real -> real,
    cos: real -> real,
    hypot: (real, real) -> real)

  /** The operations of JavaScript's `Math` object that the widget uses. */
  type Math = m: TrigOps | m.PI > 0.0
    witness TrigOps(3.0, (y, x) => 0.0, a => 0.0, a => 1.0, (x, y) => 0.0)

  /** `Math.atan2(y, x)` lies in (-π, π]. */
  ghost predicate Atan2Range(m: Math) {
    forall y, x :: -m.PI < m.atan2(y, x) <= m.PI
  }

  /** sin² + cos² = 1 at the angle a. */
  ghost predicate UnitCircleAt(m: Math, a: real) {
    m.sin(a) * m.sin(a) + m.cos(a) * m.cos(a) == 1.0
  }

  /** sin² + cos² = 1.  (The nonlinear laws are stated point by point, so a
      proof instantiates them only where it names the point.) */
  ghost predicate Pythagorean(m: Math) {
    forall a :: UnitCircleAt(m, a)
  }

  /** `Math.hypot(x, y)` is the non-negative square root of x² + y². */
  ghost predicate HypotAt(m: Math, x: real, y: real) {
    0.0 <= m.hypot(x, y) && m.hypot(x, y) * m.hypot(x, y) == x * x + y * y
  }

  ghost predicate HypotLaw(m: Math) {
    forall x, y :: HypotAt(m, x, y)
  }

  /** A quarter turn: sin(a + π/2) = cos a and cos(a + π/2) = -sin a. */
  ghost predicate QuarterTurn(m: Math) {
    && (forall a, b | b == a + m.PI / 2.0 :: m.sin(b) == m.cos(a))
    && (forall a, b | b == a + m.PI / 2.0 :: m.cos(b) == -m.sin(a))
  }

  /** sin and cos have period 2π. */
  ghost predicate FullTurn(m: Math) {
    && (forall a, b | b == a + 2.0 * m.PI :: m.sin(b) == m.sin(a))
    && (forall a, b | b == a + 2.0 * m.PI :: m.cos(b) == m.cos(a))
  }

  /** `atan2(y, x)` is the direction of the point (x, y). */
  ghost predicate PolarAt(m: Math, y: real, x: real) {
    m.hypot(x, y) > 0.0 ==>
      && m.cos(m.atan2(y, x)) * m.hypot(x, y) == x
      && m.sin(m.atan2(y, x)) * m.hypot(x, y) == y
  }

  ghost predicate Polar(m: Math) {
    forall y, x :: PolarAt(m, y, x)
  }

  /** `atan2` on the positive x axis is 0, and in the upper half plane it lies in (0, π). */
  ghost predicate AxisAngles(m: Math) {
    && (forall x | x > 0.0 :: m.atan2(0.0, x) == 0.0)
    && (forall y, x | y > 0.0 :: 0.0 < m.atan2(y, x) < m.PI)
  }

  function Hypotenuse(m: Math, x: real, y: real): real {
    m.hypot(x, y)
  }

  /** The direction of the screen offset (x, y), with y pointing down the
      screen, as an angle counter-clockwise from the positive x axis.  A
      non-positive `atan2` result is moved up by a full turn, so the angle
      lies in (0, 2π]: a zero angle is reported as 2π. */
  function AngleRadians(m: Math, x: real, y: real): (r: real)
    ensures Atan2Range(m) ==> 0.0 < r <= 2.0 * m.PI
  {
    var inverseTan := m.atan2(-y, x);
    if inverseTan > 0.0 then inverseTan else inverseTan + 2.0 * m.PI
  }

  function RadiansToDegrees(m: Math, radians: real): (degrees: real)
    ensures degrees * m.PI == radians * 180.0
  {
    (radians * 180.0) / m.PI
  }

  /** The x coordinate of the point at `radius` along `angleRadians`. */
  function GetMaxX(m: Math, angleRadians: real, radius: real): (x: real)
    ensures radius == 0.0 ==> x == 0.0
  {
    m.sin(angleRadians + m.PI / 2.0) * radius
  }

  /** The y coordinate (screen orientation) of the point at `radius` along `angleRadians`. */
  function GetMaxY(m: Math, angleRadians: real, radius: real): (y: real)
    ensures radius == 0.0 ==> y == 0.0
  {
    m.cos(angleRadians + m.PI / 2.0) * radius
  }

  /** A purely rightward offset is reported as a full turn, not as 0. */
  lemma RightwardIsFullTurn(m: Math, x: real)
    requires AxisAngles(m)
    requires x > 0.0
    ensures AngleRadians(m, x, 0.0) == 2.0 * m.PI
  {
    assert -0.0 == 0.0;
    assert m.atan2(0.0, x) == 0.0;
  }

  /** Y is negated: an offset up the screen (y < 0) has an angle in (0, π). */
  lemma UpwardIsUpperHalf(m: Math, x: real, y: real)
    requires AxisAngles(m)
    requires y < 0.0
    ensures 0.0 < AngleRadians(m, x, y) < m.PI
  {
    assert 0.0 < m.atan2(-y, x) < m.PI;
  }

  /** Degrees are linear in radians, and π radians are 180 degrees. */
  lemma DegreesLinear(m: Math, a: real, b: real, k: real)
    ensures RadiansToDegrees(m, m.PI) == 180.0
    ensures RadiansToDegrees(m, a + b) == RadiansToDegrees(m, a) + RadiansToDegrees(m, b)
    ensures RadiansToDegrees(m, k * a) == k * RadiansToDegrees(m, a)
  {
  }

  /** The clamp coordinates are linear in the radius. */
  lemma MaxLinearInRadius(m: Math, angle: real, r: real, s: real, k: real)
    ensures GetMaxX(m, angle, r + s) == GetMaxX(m, angle, r) + GetMaxX(m, angle, s)
    ensures GetMaxY(m, angle, r + s) == GetMaxY(m, angle, r) + GetMaxY(m, angle, s)
    ensures GetMaxX(m, angle, k * r) == k * GetMaxX(m, angle, r)
    ensures GetMaxY(m, angle, k * r) == k * GetMaxY(m, angle, r)
  {
  }

  /** The point (GetMaxX, GetMaxY) lies on the circle of the given radius. */
  lemma MaxOnCircle(m: Math, angle: real, radius: real)
    requires Pythagorean(m)
    ensures GetMaxX(m, angle, radius) * GetMaxX(m, angle, radius)
          + GetMaxY(m, angle, radius) * GetMaxY(m, angle, radius) == radius * radius
  {
    var s, c := m.sin(angle + m.PI / 2.0), m.cos(angle + m.PI / 2.0);
    assert UnitCircleAt(m, angle + m.PI / 2.0);
    calc {
      (s * radius) * (s * radius) + (c * radius) * (c * radius);
      (s * s + c * c) * (radius * radius);
      radius * radius;
    }
  }

  /** A non-negative number is fixed by its square. */
  lemma NonNegativeRootUnique(a: real, b: real)
    requires 0.0 <= a && 0.0 <= b
    requires a * a == b * b
    ensures a == b
  {
    assert (a - b) * (a + b) == a * a - b * b;
    if a + b != 0.0 {
      assert a - b == (a * a - b * b) / (a + b);
    }
  }

  /** `Math.hypot` is determined by the squares of its arguments. */
  lemma HypotBySquares(m: Math, x: real, y: real, u: real, v: real)
    requires HypotLaw(m)
    requires x * x + y * y == u * u + v * v
    ensures m.hypot(x, y) == m.hypot(u, v)
  {
    assert HypotAt(m, x, y) && HypotAt(m, u, v);
    NonNegativeRootUnique(m.hypot(x, y), m.hypot(u, v));
  }

  /** Squaring is monotonic on the non-negative reals. */
  lemma SquareMonotonic(a: real, b: real)
    requires 0.0 <= a <= b
    ensures a * a <= b * b
  {
    assert b * b - a * a == (b - a) * (b + a);
  }

  lemma SquareStrictlyMonotonic(a: real, b: real)
    requires 0.0 <= a < b
    ensures a * a < b * b
  {
    var d := b - a;
    assert b * b == a * a + (2.0 * a + d) * d;
    assert (2.0 * a + d) * d > 0.0;
  }

  /** For a non-negative radius, `hypot(x, y) <= r` exactly when x² + y² <= r². */
  lemma HypotAtMost(m: Math, x: real, y: real, r: real)
    requires HypotLaw(m)
    requires 0.0 <= r
    ensures m.hypot(x, y) <= r <==> x * x + y * y <= r * r
  {
    var h := m.hypot(x, y);
    assert HypotAt(m, x, y);
    if h <= r {
      SquareMonotonic(h, r);
    } else {
      SquareStrictlyMonotonic(r, h);
    }
  }

  /** The clamp point is cos a and -sin a scaled by the radius. */
  lemma MaxByQuarterTurn(m: Math, a: real, radius: real)
    requires QuarterTurn(m)
    ensures GetMaxX(m, a, radius) == m.cos(a) * radius
    ensures GetMaxY(m, a, radius) == -m.sin(a) * radius
  {
    var b := a + m.PI / 2.0;
    assert m.sin(b) == m.cos(a);
    assert m.cos(b) == -m.sin(a);
  }

  /** cos and sin of the normalised angle give back the offset, with y
      pointing down the screen. */
  lemma AngleDirection(m: Math, x: real, y: real)
    requires HypotLaw(m) && Polar(m) && FullTurn(m)
    requires m.hypot(x, y) > 0.0
    ensures m.cos(AngleRadians(m, x, y)) * m.hypot(x, y) == x
    ensures -m.sin(AngleRadians(m, x, y)) * m.hypot(x, y) == y
  {
    HypotBySquares(m, x, -y, x, y);
    var t := m.atan2(-y, x);
    assert PolarAt(m, -y, x);
    assert m.cos(t) * m.hypot(x, -y) == x && m.sin(t) * m.hypot(x, -y) == -y;
    var a := AngleRadians(m, x, y);
    if a != t {
      assert a == t + 2.0 * m.PI;
      assert m.sin(a) == m.sin(t);
      assert m.cos(a) == m.cos(t);
    }
  }

  lemma RayFromFacts(gx: real, gy: real, c: real, s: real, h: real, radius: real, x: real, y: real)
    requires gx == c * radius && gy == -s * radius
    requires c * h == x && -s * h == y
    ensures gx * h == radius * x && gy * h == radius * y
  {
  }

  /** The clamp point lies on the ray from the centre through (x, y): it is
      (x, y) scaled by radius / hypot(x, y). */
  lemma MaxAlongRay(m: Math, x: real, y: real, radius: real)
    requires HypotLaw(m) && Polar(m) && QuarterTurn(m) && FullTurn(m)
    requires m.hypot(x, y) > 0.0
    ensures GetMaxX(m, AngleRadians(m, x, y), radius) * m.hypot(x, y) == radius * x
    ensures GetMaxY(m, AngleRadians(m, x, y), radius) * m.hypot(x, y) == radius * y
  {
    var a := AngleRadians(m, x, y);
    AngleDirection(m, x, y);
    MaxByQuarterTurn(m, a, radius);
    RayFromFacts(GetMaxX(m, a, radius), GetMaxY(m, a, radius), m.cos(a), m.sin(a), m.hypot(x, y), radius, x, y);
  }
}
