/** Arithmetic shared by every script of the rover: Python's float modulo,
    the three angle normalisations the scripts use, clamping, Python's int()
    truncation, floor midpoints and squared distances.

    Angles are degrees. `atan2`, `hypot`, `sqrt` and the perspective transform
    never appear here: the scripts' results of those calls enter the model as
    parameters, and a distance test `hypot(dx, dy) < tol` is the equivalent
    squared test `dx*dx + dy*dy < tol*tol` (tol >= 0). */
module RoverMath {

  datatype Option<T> = None | Some(value: T)

  /** A position as a pair of reals (inches, or pixels after a conversion). */
  datatype Point = Point(x: real, y: real)

  /** An integer pixel position, as the colour-marker detectors report it. */
  datatype Pixel = Pixel(x: int, y: int)

  function Abs(x: real): real { if x < 0.0 then -x else x }

  function Min(a: real, b: real): real { if a <= b then a else b }

  function Max(a: real, b: real): real { if a >= b then a else b }

  function IntMin(a: int, b: int): int { if a <= b then a else b }

  function IntMax(a: int, b: int): int { if a >= b then a else b }

  predicate IsInteger(x: real) { x.Floor as real == x }

  /** The two angles denote the same direction. */
  predicate Congruent360(a: real, b: real) { IsInteger((a - b) / 360.0) }

  lemma IntegerOf(n: int)
    ensures IsInteger(n as real)
  {
  }

  lemma IntegerSum(p: real, q: real)
    requires IsInteger(p) && IsInteger(q)
    ensures IsInteger(p + q) && IsInteger(p - q) && IsInteger(-p)
  {
    var i, j := p.Floor, q.Floor;
    assert p + q == (i + j) as real;
    IntegerOf(i + j);
    assert p - q == (i - j) as real;
    IntegerOf(i - j);
    assert -p == (-i) as real;
    IntegerOf(-i);
  }

  lemma CongruentSymmetric(a: real, b: real)
    requires Congruent360(a, b)
    ensures Congruent360(b, a)
  {
    assert (b - a) / 360.0 == -((a - b) / 360.0);
    IntegerSum((a - b) / 360.0, 0.0);
  }

  lemma CongruentTransitive(a: real, b: real, c: real)
    requires Congruent360(a, b) && Congruent360(b, c)
    ensures Congruent360(a, c)
  {
    assert (a - c) / 360.0 == (a - b) / 360.0 + (b - c) / 360.0;
    IntegerSum((a - b) / 360.0, (b - c) / 360.0);
  }

  lemma CongruentNegate(a: real, b: real)
    requires Congruent360(a, b)
    ensures Congruent360(-a, -b)
  {
    assert (-a - -b) / 360.0 == -((a - b) / 360.0);
    IntegerSum((a - b) / 360.0, 0.0);
  }

  /** Shifting both angles by the same amount keeps them congruent. */
  lemma CongruentShift(a: real, b: real, s: real)
    requires Congruent360(a, b)
    ensures Congruent360(a + s, b + s)
  {
    assert (a + s - (b + s)) / 360.0 == (a - b) / 360.0;
  }

  /** Two congruent angles in one half-open window of width 360 are equal. */
  lemma CongruentUnique(a: real, b: real, lo: real)
    requires Congruent360(a, b)
    requires lo <= a < lo + 360.0 && lo <= b < lo + 360.0
    ensures a == b
  {
    var k := (a - b) / 360.0;
    assert -1.0 < k < 1.0;
    assert k.Floor == 0;
  }

  /** Python's float `a % m` with m > 0: the remainder always lies in [0, m)
      and differs from `a` by a whole number of `m`. */
  function PyMod(a: real, m: real): (r: real)
    requires m > 0.0
    ensures 0.0 <= r < m
    ensures IsInteger((a - r) / m)
  {
    var f := (a / m).Floor as real;
    ModBounds(a, m, f);
    a - m * f
  }

  /** The remainder left by a whole quotient `f` within one of `a / m`. */
  lemma ModBounds(a: real, m: real, f: real)
    requires m > 0.0 && f <= a / m < f + 1.0
    ensures 0.0 <= a - m * f < m
    ensures (a - (a - m * f)) / m == f
  {
    var q := a / m;
    assert m * q == a;
    MulMono(m, f, q);
    assert m * f <= a;
    MulMono(m, q, f + 1.0);
    assert m * (f + 1.0) == m * f + m;
    assert a < m * f + m;
    assert a - (a - m * f) == m * f;
  }

  lemma MulMono(m: real, x: real, y: real)
    requires m > 0.0 && x <= y
    ensures m * x <= m * y
    ensures x < y ==> m * x < m * y
  {
  }

  /** `(angle + 180) % 360 - 180` (Testing/deepSEEKRover.py, Autonomous/finalPiSky.py,
      Testing/grokPiInTheSky.py): a direction in [-180, 180). */
  function NormalizeAngle(a: real): (r: real)
    ensures -180.0 <= r < 180.0
    ensures Congruent360(r, a)
  {
    var m := PyMod(a + 180.0, 360.0);
    assert (m - 180.0 - a) / 360.0 == -((a + 180.0 - m) / 360.0);
    IntegerSum((a + 180.0 - m) / 360.0, 0.0);
    m - 180.0
  }

  /** `e = a % 360; if e > 180: e -= 360` (Testing/Test_roverSim.py, testv8.py,
      testv6.py). This is also the angle that `atan2(sin a, cos a)` reads back
      from a direction vector built with `create_vector(a, m)`, m > 0. */
  function PrincipalAngle(a: real): (r: real)
    ensures -180.0 < r <= 180.0
    ensures Congruent360(r, a)
  {
    var e := PyMod(a, 360.0);
    assert (e - a) / 360.0 == -((a - e) / 360.0);
    IntegerSum((a - e) / 360.0, 0.0);
    if e > 180.0 then
      assert (e - 360.0 - a) / 360.0 == (e - a) / 360.0 - 1.0;
      IntegerSum((e - a) / 360.0, 1.0);
      e - 360.0
    else
      e
  }

  /** The single-step wrap `if e > 180: e -= 360 elif e < -180: e += 360`
      (testv4.py, Autonomous_Driving_Code.py, DEPRECATED_Autonomous_Driving_Code.py):
      one correction of at most a full turn, which lands in [-180, 180] only
      for errors in [-540, 540]. */
  function WrapOnce(e: real): (r: real)
    ensures Congruent360(r, e)
    ensures Abs(r - e) <= 360.0
    ensures -540.0 <= e <= 540.0 ==> -180.0 <= r <= 180.0
  {
    if e > 180.0 then
      assert (e - 360.0 - e) / 360.0 == (-1) as real;
      e - 360.0
    else if e < -180.0 then
      assert (e + 360.0 - e) / 360.0 == 1 as real;
      e + 360.0
    else
      assert (e - e) / 360.0 == 0 as real;
      e
  }

  /** An angle congruent to a principal angle `y` reads back as `y`. */
  lemma {:induction false} PrincipalOfCongruent(x: real, y: real)
    requires Congruent360(x, y)
    requires -180.0 < y <= 180.0
    ensures PrincipalAngle(x) == y
  {
    var p := PrincipalAngle(x);
    CongruentTransitive(p, x, y);
    CongruentNegate(p, y);
    CongruentUnique(-p, -y, -180.0);
  }

  /** The two wrapping conventions of the scripts agree except at the
      boundary: `NormalizeAngle` gives -180 where `PrincipalAngle` gives 180. */
  lemma NormalizeVersusPrincipal(a: real)
    ensures PrincipalAngle(a) == 180.0 ==> NormalizeAngle(a) == -180.0
    ensures PrincipalAngle(a) != 180.0 ==> NormalizeAngle(a) == PrincipalAngle(a)
  {
    var n, p := NormalizeAngle(a), PrincipalAngle(a);
    CongruentSymmetric(p, a);
    CongruentTransitive(n, a, p);
    if p == 180.0 {
      assert Congruent360(n, -180.0) by {
        assert (n - -180.0) / 360.0 == (n - p) / 360.0 + 1.0;
        IntegerSum((n - p) / 360.0, 1.0);
      }
      CongruentUnique(n, -180.0, -180.0);
    } else {
      CongruentUnique(n, p, -180.0);
    }
  }

  /** On errors in (-540, 540] the single-step wrap computes the principal
      angle, except that it keeps -180 where the principal angle is 180. */
  lemma WrapOnceVersusPrincipal(e: real)
    requires -540.0 < e <= 540.0
    ensures WrapOnce(e) == PrincipalAngle(e) || (WrapOnce(e) == -180.0 && PrincipalAngle(e) == 180.0)
  {
    var w, p := WrapOnce(e), PrincipalAngle(e);
    CongruentSymmetric(p, e);
    CongruentTransitive(w, e, p);
    if w == -180.0 {
      assert Congruent360(180.0, p) by {
        assert (180.0 - p) / 360.0 == (w - p) / 360.0 + 1.0;
        IntegerSum((w - p) / 360.0, 1.0);
      }
      CongruentNegate(180.0, p);
      CongruentUnique(-180.0, -p, -180.0);
    } else {
      CongruentNegate(w, p);
      CongruentUnique(-w, -p, -180.0);
    }
  }

  /** Python's `max(lo, min(x, hi))`. */
  function Clamp(x: real, lo: real, hi: real): (r: real)
    requires lo <= hi
    ensures lo <= r <= hi
    ensures lo <= x <= hi ==> r == x
    ensures x < lo ==> r == lo
    ensures x > hi ==> r == hi
  {
    Max(lo, Min(x, hi))
  }

  /** Python's `int(x)` on a float: truncation toward zero. */
  function Trunc(x: real): (r: int)
    ensures 0.0 <= x ==> r as real <= x < r as real + 1.0
    ensures x < 0.0 ==> r as real - 1.0 < x <= r as real
  {
    if x >= 0.0 then x.Floor else -((-x).Floor)
  }

  lemma TruncOfInteger(n: int)
    ensures Trunc(n as real) == n
  {
  }

  /** Python's `(a + b) // 2` on integers: the floor of the average. Dafny's
      `/` by a positive divisor is floor division, as Python's `//` is. */
  function FloorMid(a: int, b: int): (r: int)
    ensures 2 * r <= a + b < 2 * r + 2
    ensures IntMin(a, b) <= r <= IntMax(a, b)
  {
    (a + b) / 2
  }

  /** `calculate_center(point1, point2)`: the coordinate-wise floor midpoint. */
  function CalculateCenter(p: Pixel, q: Pixel): (c: Pixel)
    ensures IntMin(p.x, q.x) <= c.x <= IntMax(p.x, q.x)
    ensures IntMin(p.y, q.y) <= c.y <= IntMax(p.y, q.y)
    ensures 2 * c.x <= p.x + q.x < 2 * c.x + 2 && 2 * c.y <= p.y + q.y < 2 * c.y + 2
  {
    Pixel(FloorMid(p.x, q.x), FloorMid(p.y, q.y))
  }

  /** `b` ends with `a`: what popping heads off `b` can leave. */
  predicate IsSuffix(a: seq<Pixel>, b: seq<Pixel>)
  {
    |a| <= |b| && a == b[|b| - |a|..]
  }

  lemma SuffixTransitive(a: seq<Pixel>, b: seq<Pixel>, c: seq<Pixel>)
    requires IsSuffix(a, b) && IsSuffix(b, c)
    ensures IsSuffix(a, c)
  {
    assert c[|c| - |b|..][|b| - |a|..] == c[|c| - |a|..];
  }

  function DistSq(dx: real, dy: real): real { dx * dx + dy * dy }

  function PixelDistSq(p: Pixel, q: Pixel): int
  {
    (p.x - q.x) * (p.x - q.x) + (p.y - q.y) * (p.y - q.y)
  }

  /** `d` is `math.hypot(dx, dy)`. */
  predicate IsHypot(d: real, dx: real, dy: real) { d >= 0.0 && d * d == DistSq(dx, dy) }

  /** The equivalence the squared distance tests rely on. */
  lemma HypotCompare(d: real, dx: real, dy: real, tol: real)
    requires IsHypot(d, dx, dy) && tol >= 0.0
    ensures d < tol <==> DistSq(dx, dy) < tol * tol
    ensures d <= tol <==> DistSq(dx, dy) <= tol * tol
  {
    if d < tol { SquareMono(d, tol); }
    if tol < d { SquareMono(tol, d); }
  }

  /** The same equivalence for the distance between two pixels, whose
      squared distance is the integer `PixelDistSq`. */
  lemma PixelHypotCompare(d: real, p: Pixel, q: Pixel, tol: real)
    requires IsHypot(d, (p.x - q.x) as real, (p.y - q.y) as real) && tol >= 0.0
    ensures d <= tol <==> PixelDistSq(p, q) as real <= tol * tol
  {
    var dx, dy := p.x - q.x, p.y - q.y;
    HypotCompare(d, dx as real, dy as real, tol);
    assert (dx * dx) as real == dx as real * dx as real;
    assert (dy * dy) as real == dy as real * dy as real;
  }

  lemma SquareMono(a: real, b: real)
    requires 0.0 <= a < b
    ensures a * a < b * b
  {
    MulMono(b - a, 0.0, b + a);
    assert (b - a) * (b + a) == b * b - a * a;
  }
}
