/** The vector helpers of testv4.py and
    DEPRECATED/DEPRECATED_Autonomous_Driving_Code.py, and the direction
    vector those scripts keep in polar form.

    `create_vector(angle, magnitude)` builds `magnitude * (cos, sin)` of the
    angle and `get_angle_and_magnitude` reads it back with `atan2` and
    `hypot`. Neither sine nor cosine is part of this model: a direction is
    kept as the pair it was created from, and reading its angle back is the
    principal angle, in (-180, 180], congruent to the angle it was built
    with. */
module Vectors {
  import opened RoverMath

  /** `add_vectors(v1, v2)`. */
  function Add(v: Point, w: Point): (r: Point)
    ensures r.x == v.x + w.x && r.y == v.y + w.y
  {
    Point(v.x + w.x, v.y + w.y)
  }

  /** `subtract_vectors(v1, v2)`. */
  function Subtract(v: Point, w: Point): (r: Point)
    ensures r.x == v.x - w.x && r.y == v.y - w.y
  {
    Point(v.x - w.x, v.y - w.y)
  }

  /** `scale_vector(vector, scalar)`. */
  function Scale(v: Point, s: real): (r: Point)
    ensures r.x == v.x * s && r.y == v.y * s
  {
    Point(v.x * s, v.y * s)
  }

  /** Subtraction undoes addition, and the other way round. */
  lemma AddSubtractInverse(v: Point, w: Point)
    ensures Subtract(Add(v, w), w) == v
    ensures Add(Subtract(v, w), w) == v
  {
  }

  /** Scaling distributes over addition and composes by multiplication. */
  lemma ScaleLaws(v: Point, w: Point, s: real, t: real)
    ensures Scale(Add(v, w), s) == Add(Scale(v, s), Scale(w, s))
    ensures Scale(Scale(v, s), t) == Scale(v, s * t)
    ensures Scale(v, 1.0) == v
  {
    assert v.x * s * t == v.x * (s * t);
    assert v.y * s * t == v.y * (s * t);
  }

  /** A direction vector `create_vector(angle, magnitude)`. */
  datatype Direction = Direction(angle: real, magnitude: real)

  /** `get_angle_and_magnitude(create_vector(angle, magnitude))[0]` for a
      positive magnitude. */
  function HeadingOf(d: Direction): (r: real)
    requires d.magnitude > 0.0
    ensures -180.0 < r <= 180.0 && Congruent360(r, d.angle)
  {
    PrincipalAngle(d.angle)
  }
}
