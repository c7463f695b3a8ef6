/**
 * The quadratic `a t² + 2 b t + c` solved by both sphere tests, with the
 * half coefficient `b` (`half_b` in the source) and its discriminant
 * `b² - a c`.
 */
module Quadratic {
  import opened Numeric
  import opened Vector

  function Quad(a: real, b: real, c: real, t: real): real
  {
    a * t * t + 2.0 * b * t + c
  }

  function Discriminant(a: real, b: real, c: real): real
  {
    b * b - a * c
  }

  /** `(-half_b - root) / a`: the smaller root. */
  function NearRoot(a: real, b: real, s: real): real
    requires a != 0.0
  {
    (-b - s) / a
  }

  /** `(-half_b + root) / a`: the larger root. */
  function FarRoot(a: real, b: real, s: real): real
    requires a != 0.0
  {
    (-b + s) / a
  }

  /** Completing the square: `a · Quad = (a t + b)² - discriminant`. */
  lemma CompletedSquare(a: real, b: real, c: real, t: real)
    ensures a * Quad(a, b, c, t) == (a * t + b) * (a * t + b) - Discriminant(a, b, c)
  {
  }

  lemma ProductZero(x: real, y: real)
    ensures x * y == 0.0 <==> x == 0.0 || y == 0.0
  {
    if x != 0.0 && y != 0.0 {
      if 0.0 < x && 0.0 < y { MulPos(x, y); }
      else if 0.0 < x { MulPos(x, -y); }
      else if 0.0 < y { MulPos(-x, y); }
      else { MulPos(-x, -y); }
    }
  }

  /** With a non-negative root `s` of the discriminant, the zeros are exactly the two roots. */
  lemma Roots(a: real, b: real, c: real, s: real, t: real)
    requires a != 0.0 && 0.0 <= s && s * s == Discriminant(a, b, c)
    ensures Quad(a, b, c, t) == 0.0 <==> t == NearRoot(a, b, s) || t == FarRoot(a, b, s)
  {
    var u := a * t + b;
    CompletedSquare(a, b, c, t);
    ProductZero(a, Quad(a, b, c, t));
    assert (u - s) * (u + s) == u * u - s * s;
    ProductZero(u - s, u + s);
    assert t == NearRoot(a, b, s) <==> a * t == -b - s;
    assert t == FarRoot(a, b, s) <==> a * t == -b + s;
  }

  /** A negative discriminant leaves no real zero when `a > 0`. */
  lemma NoRoot(a: real, b: real, c: real, t: real)
    requires 0.0 < a && Discriminant(a, b, c) < 0.0
    ensures Quad(a, b, c, t) != 0.0
  {
    var u := a * t + b;
    CompletedSquare(a, b, c, t);
    if 0.0 <= u { MulNonneg(u, u); } else { MulNonneg(-u, -u); }
    ProductZero(a, Quad(a, b, c, t));
  }

  /** For `a > 0` the near root is at most the far one. */
  lemma RootsOrdered(a: real, b: real, s: real)
    requires 0.0 < a && 0.0 <= s
    ensures NearRoot(a, b, s) <= FarRoot(a, b, s)
  {
    MulMonotone(-b - s, -b + s, 1.0 / a);
  }

  lemma SquareOfSum(o: real, d: real, t: real)
    ensures (o + t * d) * (o + t * d) == o * o + 2.0 * t * (o * d) + t * t * (d * d)
  {
  }

  /** The squared distance along the ray, expanded in powers of the parameter. */
  lemma ExpandDistance(ox: real, oy: real, oz: real, dx: real, dy: real, dz: real, t: real, r2: real)
    ensures (ox + t * dx) * (ox + t * dx) + (oy + t * dy) * (oy + t * dy) + (oz + t * dz) * (oz + t * dz) - r2
      == (dx * dx + dy * dy + dz * dz) * t * t + 2.0 * (ox * dx + oy * dy + oz * dz) * t + (ox * ox + oy * oy + oz * oz - r2)
  {
    SquareOfSum(ox, dx, t);
    SquareOfSum(oy, dy, t);
    SquareOfSum(oz, dz, t);
  }

  /** `|o + t d|² - r2` is the quadratic with `a = d·d`, `half_b = o·d` and `c = o·o - r2`. */
  lemma DistanceQuad(o: Vec3, d: Vec3, t: real, r2: real)
    ensures Vec3(o.x + t * d.x, o.y + t * d.y, o.z + t * d.z).Magnitude() - r2 == Quad(d.Magnitude(), Dot(o, d), o.Dot(o) - r2, t)
  {
    ExpandDistance(o.x, o.y, o.z, d.x, d.y, d.z, t, r2);
  }
}
