/** The small part of a three-component vector library that the player
    systems use: vectors of reals for translations, integer vectors for the
    key direction before it is normalised, and `normalize_or_zero`. */
module Vectors {

  /** A translation, with real coordinates. */
  datatype Vec3 = Vec3(x: real, y: real, z: real) {
    function Plus(b: Vec3): Vec3 {
      Vec3(x + b.x, y + b.y, z + b.z)
    }
  }

  const Zero: Vec3 := Vec3(0.0, 0.0, 0.0)

  function Scale(c: real, a: Vec3): Vec3 {
    Vec3(c * a.x, c * a.y, c * a.z)
  }

  /** -1, 0 or 1, as the sign of `r`. */
  function Sign(r: real): int {
    if r > 0.0 then 1 else if r < 0.0 then -1 else 0
  }

  /** The squared Euclidean length. */
  function LengthSquared(a: Vec3): real {
    a.x * a.x + a.y * a.y + a.z * a.z
  }

  /** Scaling by a positive factor keeps the sign of every component. */
  lemma ScalePreservesSign(c: real, a: Vec3)
    requires c > 0.0
    ensures Sign(Scale(c, a).x) == Sign(a.x)
    ensures Sign(Scale(c, a).y) == Sign(a.y)
    ensures Sign(Scale(c, a).z) == Sign(a.z)
  {
    ProductSign(c, a.x);
    ProductSign(c, a.y);
    ProductSign(c, a.z);
  }

  lemma ProductSign(c: real, r: real)
    requires c > 0.0
    ensures Sign(c * r) == Sign(r)
  {
    if r > 0.0 {
      assert c * r > 0.0;
    } else if r < 0.0 {
      assert c * -r > 0.0;
    }
  }

  /** A direction whose components are whole numbers, as the sum of unit
      axis vectors is before it is normalised. */
  datatype IVec3 = IVec3(x: int, y: int, z: int) {
    function Plus(b: IVec3): IVec3 {
      IVec3(x + b.x, y + b.y, z + b.z)
    }
  }

  const IZero: IVec3 := IVec3(0, 0, 0)
  /** The unit axis vectors. */
  const UnitX: IVec3 := IVec3(1, 0, 0)
  const NegUnitX: IVec3 := IVec3(-1, 0, 0)
  const UnitY: IVec3 := IVec3(0, 1, 0)
  const NegUnitY: IVec3 := IVec3(0, -1, 0)

  function ToReal(d: IVec3): Vec3 {
    Vec3(d.x as real, d.y as real, d.z as real)
  }

  /** A direction in the plane that moves at most one unit along each axis:
      the only directions that four arrow keys can produce. */
  predicate IsPlanarStep(d: IVec3) {
    -1 <= d.x <= 1 && -1 <= d.y <= 1 && d.z == 0
  }

  /** The single-precision value that `normalize_or_zero` gives each
      component of a diagonal unit step: 1 divided by the single-precision
      square root of 2, rounded to single precision (0.70710677). */
  const DiagonalComponent: real := 11863283.0 / 16777216.0

  /** The smallest squared length a normalised non-zero step can have: the
      rounding of `DiagonalComponent` leaves a diagonal short of 1 by less
      than 2^-24. */
  const UnitLengthFloor: real := 1.0 - 1.0 / 16777216.0

  /** `normalize_or_zero` on a planar step: the zero vector stays zero, an
      axis-aligned step already has length 1, and a diagonal step is scaled
      by the reciprocal of its length. */
  function NormalizeOrZero(d: IVec3): (n: Vec3)
    requires IsPlanarStep(d)
    ensures n == Zero <==> d == IZero
    ensures Sign(n.x) == d.x && Sign(n.y) == d.y && n.z == 0.0
    // the result points the same way as the input
    ensures n.x * (d.y as real) == n.y * (d.x as real)
    ensures d.x == 0 || d.y == 0 ==> n == ToReal(d)
  {
    if d.x != 0 && d.y != 0 then Scale(DiagonalComponent, ToReal(d)) else ToReal(d)
  }

  /** A non-zero planar step normalises to unit length, up to the rounding
      of the diagonal component, which leaves a diagonal slightly short. */
  lemma NormalizedLength(d: IVec3)
    requires IsPlanarStep(d)
    ensures d == IZero ==> LengthSquared(NormalizeOrZero(d)) == 0.0
    ensures d != IZero && (d.x == 0 || d.y == 0) ==> LengthSquared(NormalizeOrZero(d)) == 1.0
    ensures d.x != 0 && d.y != 0 ==>
      UnitLengthFloor < LengthSquared(NormalizeOrZero(d)) < 1.0
  {
    if d.x != 0 && d.y != 0 {
      var k := DiagonalComponent;
      assert d.x * d.x == 1 && d.y * d.y == 1;
      assert LengthSquared(NormalizeOrZero(d)) == 2.0 * k * k;
    }
  }

  lemma ScaledLengthSquared(c: real, a: Vec3)
    ensures LengthSquared(Scale(c, a)) == c * c * LengthSquared(a)
  {
  }

  /** Scaling by `c` a vector whose squared length lies between `lo` and 1
      gives one whose squared length lies between `lo * c * c` and `c * c`. */
  lemma ScaledLengthBounds(lo: real, c: real, a: Vec3)
    requires lo <= LengthSquared(a) <= 1.0
    ensures lo * (c * c) <= LengthSquared(Scale(c, a)) <= c * c
  {
    ScaledLengthSquared(c, a);
    var sq := c * c;
    assert sq >= 0.0;
    assert lo * sq <= LengthSquared(a) * sq <= 1.0 * sq;
  }

  /** A non-zero planar step, normalised and then scaled by `c`, has
      length `c`, up to the rounding of the diagonal component, and never
      more. */
  lemma ScaledNormalizedLength(c: real, d: IVec3)
    requires IsPlanarStep(d) && d != IZero
    ensures UnitLengthFloor * (c * c) <= LengthSquared(Scale(c, NormalizeOrZero(d))) <= c * c
  {
    NormalizedLength(d);
    ScaledLengthBounds(UnitLengthFloor, c, NormalizeOrZero(d));
  }

  /** An axis-aligned unit step scaled by `c` has length exactly `c`. */
  lemma ScaledAxisLength(c: real, d: IVec3)
    requires IsPlanarStep(d) && d != IZero && (d.x == 0 || d.y == 0)
    ensures LengthSquared(Scale(c, NormalizeOrZero(d))) == c * c
  {
    NormalizedLength(d);
    ScaledLengthSquared(c, NormalizeOrZero(d));
  }
}
