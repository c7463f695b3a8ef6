/**
 * src/vector.rs: the three-component vector used for points, directions and
 * colours. Components are reals (f64 in the source). The operators are pure;
 * the compound assignments and `index_mut` change a vector in place and are
 * modelled on the class `Vec3Cell`.
 */
module Vector {
  import opened Numeric

  datatype Vec3 = Vec3(x: real, y: real, z: real)
  {
    /** `magnitude`: the squared length. */
    function Magnitude(): (m: real)
      ensures 0.0 <= m
      ensures m == Dot(this)
    {
      x * x + y * y + z * z
    }

    /** `length`: the square root of the squared length. */
    function Length(sqrt: real -> real): (l: real)
      ensures IsSqrt(sqrt) ==> 0.0 <= l && l * l == Magnitude()
    {
      sqrt(Magnitude())
    }

    /** The method form of the dot product. */
    function Dot(other: Vec3): real
    {
      x * other.x + y * other.y + z * other.z
    }

    /** `cross`: the cross product, orthogonal to both arguments. */
    function Cross(other: Vec3): (c: Vec3)
      ensures Dot(c) == 0.0 && other.Dot(c) == 0.0
    {
      Vec3(y * other.z - z * other.y, z * other.x - x * other.z, x * other.y - y * other.x)
    }

    /** `normalize`: each component divided by the length; the zero vector is excluded. */
    function Normalize(sqrt: real -> real): (n: Vec3)
      requires Length(sqrt) != 0.0
      ensures n == Scale(1.0 / Length(sqrt), this)
      ensures IsSqrt(sqrt) ==> n.Magnitude() == 1.0
    {
      var len := Length(sqrt);
      ScaledToUnit(this, len);
      Vec3(x / len, y / len, z / len)
    }

    /** `+`: component-wise sum. */
    function Add(other: Vec3): Vec3
    {
      Vec3(x + other.x, y + other.y, z + other.z)
    }

    /** `-`: component-wise difference. */
    function Sub(other: Vec3): Vec3
    {
      Vec3(x - other.x, y - other.y, z - other.z)
    }

    /** `Vec3 * Vec3`: component-wise product. */
    function Mul(other: Vec3): Vec3
    {
      Vec3(x * other.x, y * other.y, z * other.z)
    }

    /** `Vec3 * f64`, written in the source as `t * self`. */
    function MulScalar(t: real): Vec3
    {
      Scale(t, this)
    }

    /** `Vec3 / Vec3`: component-wise quotient. */
    function Div(other: Vec3): Vec3
      requires other.x != 0.0 && other.y != 0.0 && other.z != 0.0
    {
      Vec3(x / other.x, y / other.y, z / other.z)
    }

    /** `Vec3 / f64`. */
    function DivScalar(t: real): Vec3
      requires t != 0.0
    {
      Vec3(x / t, y / t, z / t)
    }

    /** Unary `-`. */
    function Neg(): Vec3
    {
      Vec3(-x, -y, -z)
    }

    /** `v[i]`: 0, 1 and 2 select x, y and z; any other index panics in the source. */
    function Index(i: nat): (c: real)
      requires i < 3
      ensures i == 0 ==> c == x
      ensures i == 1 ==> c == y
      ensures i == 2 ==> c == z
    {
      match i
      case 0 => x
      case 1 => y
      case 2 => z
    }
  }

  /** The zero vector. */
  const Zero: Vec3 := Vec3(0.0, 0.0, 0.0)

  /** The free function `dot`; it agrees with the method and is symmetric. */
  function Dot(v1: Vec3, v2: Vec3): (d: real)
    ensures d == v1.Dot(v2) && d == v2.Dot(v1)
  {
    v1.x * v2.x + v1.y * v2.y + v1.z * v2.z
  }

  /** `f64 * Vec3`. */
  function Scale(t: real, v: Vec3): Vec3
  {
    Vec3(t * v.x, t * v.y, t * v.z)
  }

  /** `f64 / Vec3`: the scalar divided by each component. */
  function ScalarOver(t: real, v: Vec3): Vec3
    requires v.x != 0.0 && v.y != 0.0 && v.z != 0.0
  {
    Vec3(t / v.x, t / v.y, t / v.z)
  }

  lemma MagnitudeOfScale(t: real, v: Vec3)
    ensures Scale(t, v).Magnitude() == t * t * v.Magnitude()
  {
    assert (t * v.x) * (t * v.x) == t * t * (v.x * v.x);
    assert (t * v.y) * (t * v.y) == t * t * (v.y * v.y);
    assert (t * v.z) * (t * v.z) == t * t * (v.z * v.z);
  }

  /** Dividing by a length whose square is the magnitude gives magnitude 1. */
  lemma ScaledToUnit(v: Vec3, len: real)
    requires len != 0.0
    ensures Vec3(v.x / len, v.y / len, v.z / len) == Scale(1.0 / len, v)
    ensures len * len == v.Magnitude() ==> Vec3(v.x / len, v.y / len, v.z / len).Magnitude() == 1.0
  {
    MagnitudeOfScale(1.0 / len, v);
    assert (1.0 / len) * (1.0 / len) == 1.0 / (len * len);
  }

  /** Normalizing a vector that already has length 1 gives it back. */
  lemma NormalizeOfUnit(v: Vec3, sqrt: real -> real)
    requires sqrt(1.0) == 1.0 && v.Magnitude() == 1.0
    ensures v.Length(sqrt) == 1.0
    ensures v.Normalize(sqrt) == v
  {
    var n := v.Normalize(sqrt);
    assert n.x == v.x / 1.0;
    assert n.y == v.y / 1.0;
    assert n.z == v.z / 1.0;
  }

  /** Scaling one side of a dot product scales the product. */
  lemma DotOfScale(t: real, a: Vec3, b: Vec3)
    ensures Scale(t, a).Dot(b) == t * a.Dot(b)
    ensures b.Dot(Scale(t, a)) == t * a.Dot(b)
  {
  }

  /** Lagrange's identity: the squared length of a cross product. */
  lemma CrossMagnitude(a: Vec3, b: Vec3)
    ensures a.Cross(b).Magnitude() == a.Magnitude() * b.Magnitude() - a.Dot(b) * a.Dot(b)
  {
    var c := a.Cross(b);
    assert c.x * c.x + c.y * c.y + c.z * c.z ==
      (a.x * a.x + a.y * a.y + a.z * a.z) * (b.x * b.x + b.y * b.y + b.z * b.z)
      - (a.x * b.x + a.y * b.y + a.z * b.z) * (a.x * b.x + a.y * b.y + a.z * b.z);
  }

  /** The scalar triple product is invariant under cyclic permutation. */
  lemma TripleProductCycles(a: Vec3, b: Vec3, c: Vec3)
    ensures a.Cross(b).Dot(c) == b.Cross(c).Dot(a)
    ensures a.Cross(b).Dot(c) == c.Cross(a).Dot(b)
  {
    var ab, bc, ca := a.Cross(b), b.Cross(c), c.Cross(a);
    // the determinant of the rows a, b, c, expanded into monomials
    var det := a.y * b.z * c.x - a.z * b.y * c.x + a.z * b.x * c.y - a.x * b.z * c.y + a.x * b.y * c.z - a.y * b.x * c.z;
    assert ab.Dot(c) == det by {
      assert ab.Dot(c) == (a.y * b.z - a.z * b.y) * c.x + (a.z * b.x - a.x * b.z) * c.y + (a.x * b.y - a.y * b.x) * c.z;
    }
    assert bc.Dot(a) == det by {
      assert bc.Dot(a) == (b.y * c.z - b.z * c.y) * a.x + (b.z * c.x - b.x * c.z) * a.y + (b.x * c.y - b.y * c.x) * a.z;
    }
    assert ca.Dot(b) == det by {
      assert ca.Dot(b) == (c.y * a.z - c.z * a.y) * b.x + (c.z * a.x - c.x * a.z) * b.y + (c.x * a.y - c.y * a.x) * b.z;
    }
  }

  /** The vector triple product: a × (b × c) = (a·c) b − (a·b) c. */
  lemma DoubleCross(a: Vec3, b: Vec3, c: Vec3)
    ensures a.Cross(b.Cross(c)) == Scale(a.Dot(c), b).Sub(Scale(a.Dot(b), c))
  {
    var bc := b.Cross(c);
    var l := a.Cross(bc);
    var ac, ab := a.Dot(c), a.Dot(b);
    // each side's component as a sum of monomials in the order a, b, c
    assert l.x == ac * b.x - ab * c.x by {
      assert l.x == a.y * (b.x * c.y - b.y * c.x) - a.z * (b.z * c.x - b.x * c.z);
      assert ac * b.x == a.x * b.x * c.x + a.y * b.x * c.y + a.z * b.x * c.z;
      assert ab * c.x == a.x * b.x * c.x + a.y * b.y * c.x + a.z * b.z * c.x;
    }
    assert l.y == ac * b.y - ab * c.y by {
      assert l.y == a.z * (b.y * c.z - b.z * c.y) - a.x * (b.x * c.y - b.y * c.x);
      assert ac * b.y == a.x * b.y * c.x + a.y * b.y * c.y + a.z * b.y * c.z;
      assert ab * c.y == a.x * b.x * c.y + a.y * b.y * c.y + a.z * b.z * c.y;
    }
    assert l.z == ac * b.z - ab * c.z by {
      assert l.z == a.x * (b.z * c.x - b.x * c.z) - a.y * (b.y * c.z - b.z * c.y);
      assert ac * b.z == a.x * b.z * c.x + a.y * b.z * c.y + a.z * b.z * c.z;
      assert ab * c.z == a.x * b.x * c.z + a.y * b.y * c.z + a.z * b.z * c.z;
    }
  }

  /** Only the zero vector has squared length 0. */
  lemma MagnitudePositive(v: Vec3)
    requires v != Zero
    ensures 0.0 < v.Magnitude()
  {
    calc {
      v.Magnitude();
    ==
      v.x * v.x + v.y * v.y + v.z * v.z;
    > { SquareNonneg(v.x); SquareNonneg(v.y); SquareNonneg(v.z);
        SquarePositive(v.x); SquarePositive(v.y); SquarePositive(v.z); }
      0.0;
    }
  }

  /** Only the zero vector has length 0. */
  lemma LengthNonzero(v: Vec3, sqrt: real -> real)
    requires IsSqrt(sqrt) && v != Zero
    ensures v.Length(sqrt) != 0.0
  {
    MagnitudePositive(v);
  }

  /** The cross product with the zero vector is zero. */
  lemma CrossZero(v: Vec3)
    ensures v.Cross(Zero) == Zero
  {
  }

  /** The dot product commutes. */
  lemma DotCommutes(a: Vec3, b: Vec3)
    ensures a.Dot(b) == b.Dot(a)
  {
  }

  /** The cross product anti-commutes. */
  lemma CrossAntiCommutes(a: Vec3, b: Vec3)
    ensures b.Cross(a) == a.Cross(b).Neg()
  {
  }

  /** Both products by a scalar and the component-wise product commute. */
  lemma ProductsCommute(v: Vec3, w: Vec3, t: real)
    ensures v.MulScalar(t) == Vec3(v.x * t, v.y * t, v.z * t)
    ensures v.Mul(w) == w.Mul(v)
  {
  }

  /** Adding the negation gives zero, and subtraction undoes addition. */
  lemma AddInverses(a: Vec3, b: Vec3)
    ensures a.Add(a.Neg()) == Zero
    ensures a.Add(b).Sub(b) == a
  {
  }

  /** Dividing by `t` is multiplying by `1/t`, which is what `div_assign` does. */
  lemma DivIsMulInverse(v: Vec3, t: real)
    requires t != 0.0
    ensures v.DivScalar(t) == v.MulScalar(1.0 / t)
  {
  }

  /**
   * A vector held in a mutable place (`&mut Vec3`): the target of the
   * compound assignments and of `index_mut`.
   */
  class Vec3Cell {
    var x: real
    var y: real
    var z: real

    /** The vector currently held. */
    function Value(): Vec3
      reads this
    {
      Vec3(x, y, z)
    }

    constructor (v: Vec3)
      ensures Value() == v
    {
      x, y, z := v.x, v.y, v.z;
    }

    /** `v[i] = value` through `index_mut`: only the selected component changes. */
    method IndexMut(i: nat, value: real)
      requires i < 3
      modifies this
      ensures Value().Index(i) == value
      ensures forall k: nat :: k < 3 && k != i ==> Value().Index(k) == old(Value()).Index(k)
    {
      match i
      case 0 => x := value;
      case 1 => y := value;
      case 2 => z := value;
    }

    /** `+=`: the same vector as the binary `+`. */
    method AddAssign(other: Vec3)
      modifies this
      ensures Value() == old(Value()).Add(other)
    {
      x := x + other.x;
      y := y + other.y;
      z := z + other.z;
    }

    /** `-=`: the same vector as the binary `-`. */
    method SubAssign(other: Vec3)
      modifies this
      ensures Value() == old(Value()).Sub(other)
    {
      x := x - other.x;
      y := y - other.y;
      z := z - other.z;
    }

    /** `*= t`: the same vector as `v * t`. */
    method MulAssign(t: real)
      modifies this
      ensures Value() == old(Value()).MulScalar(t)
    {
      x := x * t;
      y := y * t;
      z := z * t;
    }

    /** `/= t`, implemented in the source as `*= 1.0 / t`; it equals `v / t`. */
    method DivAssign(t: real)
      requires t != 0.0
      modifies this
      ensures Value() == old(Value()).MulScalar(1.0 / t)
      ensures Value() == old(Value()).DivScalar(t)
    {
      MulAssign(1.0 / t);
    }
  }
}
