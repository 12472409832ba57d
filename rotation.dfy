/** Rotation matrices about an axis, in Rodrigues' form, and the facts the
    helical buckling condition relies on: a rotation fixes its axis, turning
    by the opposite angle is the transpose, and a rotation is orthonormal. */
module Rotations {
  import opened Linalg

  /** The rows of Rodrigues' matrix I + s K + t K^2 for the axis (a, b, z),
      K being the axis' cross-product matrix (K w == axis x w), t standing
      for 1 - cos(theta) and s for sin(theta). */
  function RodriguesRow0(a: real, b: real, z: real, t: real, s: real): Vec3
  {
    Vec3(1.0 - t * (b * b + z * z), t * a * b - s * z, t * a * z + s * b)
  }

  function RodriguesRow1(a: real, b: real, z: real, t: real, s: real): Vec3
  {
    Vec3(t * a * b + s * z, 1.0 - t * (a * a + z * z), t * b * z - s * a)
  }

  function RodriguesRow2(a: real, b: real, z: real, t: real, s: real): Vec3
  {
    Vec3(t * a * z - s * b, t * b * z + s * a, 1.0 - t * (a * a + b * b))
  }

  /** The rotation by an angle theta about the axis v, given cos(theta) and
      sin(theta) (Rodrigues' formula). */
  function Rotation(v: Vec3, cosTheta: real, sinTheta: real): Mat3
  {
    Mat3(
      RodriguesRow0(v.x, v.y, v.z, 1.0 - cosTheta, sinTheta),
      RodriguesRow1(v.x, v.y, v.z, 1.0 - cosTheta, sinTheta),
      RodriguesRow2(v.x, v.y, v.z, 1.0 - cosTheta, sinTheta))
  }

  /** Turning by -theta undoes turning by theta: the rotation by the opposite
      angle is the transpose. */
  lemma RotationOppositeIsTranspose(v: Vec3, c: real, s: real)
    ensures Rotation(v, c, -s) == Transpose(Rotation(v, c, s))
  {
  }

  /** A rotation leaves its own axis where it is. */
  lemma RotationFixesAxis(v: Vec3, c: real, s: real)
    ensures Apply(Rotation(v, c, s), v) == v
  {
  }

  /** Two rows of Rodrigues' matrix dotted with each other, written out. */
  lemma RodriguesRowDot00(a: real, b: real, z: real, t: real, s: real)
    ensures Dot(RodriguesRow0(a, b, z, t, s), RodriguesRow0(a, b, z, t, s)) == (1.0 - t * (b * b + z * z)) * (1.0 - t * (b * b + z * z)) + (t * a * b - s * z) * (t * a * b - s * z) + (t * a * z + s * b) * (t * a * z + s * b)
  {
  }

  lemma RodriguesRowDot11(a: real, b: real, z: real, t: real, s: real)
    ensures Dot(RodriguesRow1(a, b, z, t, s), RodriguesRow1(a, b, z, t, s)) == (t * a * b + s * z) * (t * a * b + s * z) + (1.0 - t * (a * a + z * z)) * (1.0 - t * (a * a + z * z)) + (t * b * z - s * a) * (t * b * z - s * a)
  {
  }

  lemma RodriguesRowDot22(a: real, b: real, z: real, t: real, s: real)
    ensures Dot(RodriguesRow2(a, b, z, t, s), RodriguesRow2(a, b, z, t, s)) == (t * a * z - s * b) * (t * a * z - s * b) + (t * b * z + s * a) * (t * b * z + s * a) + (1.0 - t * (a * a + b * b)) * (1.0 - t * (a * a + b * b))
  {
  }

  lemma RodriguesRowDot01(a: real, b: real, z: real, t: real, s: real)
    ensures Dot(RodriguesRow0(a, b, z, t, s), RodriguesRow1(a, b, z, t, s)) == (1.0 - t * (b * b + z * z)) * (t * a * b + s * z) + (t * a * b - s * z) * (1.0 - t * (a * a + z * z)) + (t * a * z + s * b) * (t * b * z - s * a)
  {
  }

  lemma RodriguesRowDot02(a: real, b: real, z: real, t: real, s: real)
    ensures Dot(RodriguesRow0(a, b, z, t, s), RodriguesRow2(a, b, z, t, s)) == (1.0 - t * (b * b + z * z)) * (t * a * z - s * b) + (t * a * b - s * z) * (t * b * z + s * a) + (t * a * z + s * b) * (1.0 - t * (a * a + b * b))
  {
  }

  lemma RodriguesRowDot12(a: real, b: real, z: real, t: real, s: real)
    ensures Dot(RodriguesRow1(a, b, z, t, s), RodriguesRow2(a, b, z, t, s)) == (t * a * b + s * z) * (t * a * z - s * b) + (1.0 - t * (a * a + z * z)) * (t * b * z + s * a) + (t * b * z - s * a) * (1.0 - t * (a * a + b * b))
  {
  }

  /** The Gram identities of Rodrigues' rows, as polynomial identities: each
      entry of R * R^T differs from the identity matrix's by a multiple of
      k == t^2 n - 2t + s^2, n being |axis|^2; k vanishes exactly when the
      axis is a unit vector and cos^2 + sin^2 == 1. */
  lemma RodriguesGramPoly00(a: real, b: real, z: real, t: real, s: real, n: real, k: real, p: real)
    requires n == a * a + b * b + z * z && k == t * t * n - 2.0 * t + s * s
    requires p == (1.0 - t * (b * b + z * z)) * (1.0 - t * (b * b + z * z)) + (t * a * b - s * z) * (t * a * b - s * z) + (t * a * z + s * b) * (t * a * z + s * b)
    ensures p == 1.0 + (b * b + z * z) * k
  {
  }

  lemma RodriguesGramPoly11(a: real, b: real, z: real, t: real, s: real, n: real, k: real, p: real)
    requires n == a * a + b * b + z * z && k == t * t * n - 2.0 * t + s * s
    requires p == (t * a * b + s * z) * (t * a * b + s * z) + (1.0 - t * (a * a + z * z)) * (1.0 - t * (a * a + z * z)) + (t * b * z - s * a) * (t * b * z - s * a)
    ensures p == 1.0 + (a * a + z * z) * k
  {
  }

  lemma RodriguesGramPoly22(a: real, b: real, z: real, t: real, s: real, n: real, k: real, p: real)
    requires n == a * a + b * b + z * z && k == t * t * n - 2.0 * t + s * s
    requires p == (t * a * z - s * b) * (t * a * z - s * b) + (t * b * z + s * a) * (t * b * z + s * a) + (1.0 - t * (a * a + b * b)) * (1.0 - t * (a * a + b * b))
    ensures p == 1.0 + (a * a + b * b) * k
  {
  }

  lemma RodriguesGramPoly01(a: real, b: real, z: real, t: real, s: real, n: real, k: real, p: real)
    requires n == a * a + b * b + z * z && k == t * t * n - 2.0 * t + s * s
    requires p == (1.0 - t * (b * b + z * z)) * (t * a * b + s * z) + (t * a * b - s * z) * (1.0 - t * (a * a + z * z)) + (t * a * z + s * b) * (t * b * z - s * a)
    ensures p == - a * b * k
  {
  }

  lemma RodriguesGramPoly02(a: real, b: real, z: real, t: real, s: real, n: real, k: real, p: real)
    requires n == a * a + b * b + z * z && k == t * t * n - 2.0 * t + s * s
    requires p == (1.0 - t * (b * b + z * z)) * (t * a * z - s * b) + (t * a * b - s * z) * (t * b * z + s * a) + (t * a * z + s * b) * (1.0 - t * (a * a + b * b))
    ensures p == - a * z * k
  {
  }

  lemma RodriguesGramPoly12(a: real, b: real, z: real, t: real, s: real, n: real, k: real, p: real)
    requires n == a * a + b * b + z * z && k == t * t * n - 2.0 * t + s * s
    requires p == (t * a * b + s * z) * (t * a * z - s * b) + (1.0 - t * (a * a + z * z)) * (t * b * z + s * a) + (t * b * z - s * a) * (1.0 - t * (a * a + b * b))
    ensures p == - b * z * k
  {
  }

  /** The same identities, stated of the rows as vectors. */
  lemma RodriguesGram00(a: real, b: real, z: real, t: real, s: real, n: real, k: real)
    requires n == a * a + b * b + z * z && k == t * t * n - 2.0 * t + s * s
    ensures Dot(RodriguesRow0(a, b, z, t, s), RodriguesRow0(a, b, z, t, s)) == 1.0 + (b * b + z * z) * k
  {
    var p := (1.0 - t * (b * b + z * z)) * (1.0 - t * (b * b + z * z)) + (t * a * b - s * z) * (t * a * b - s * z) + (t * a * z + s * b) * (t * a * z + s * b);
    RodriguesRowDot00(a, b, z, t, s);
    assert Dot(RodriguesRow0(a, b, z, t, s), RodriguesRow0(a, b, z, t, s)) == p;
    RodriguesGramPoly00(a, b, z, t, s, n, k, p);
  }

  lemma RodriguesGram11(a: real, b: real, z: real, t: real, s: real, n: real, k: real)
    requires n == a * a + b * b + z * z && k == t * t * n - 2.0 * t + s * s
    ensures Dot(RodriguesRow1(a, b, z, t, s), RodriguesRow1(a, b, z, t, s)) == 1.0 + (a * a + z * z) * k
  {
    var p := (t * a * b + s * z) * (t * a * b + s * z) + (1.0 - t * (a * a + z * z)) * (1.0 - t * (a * a + z * z)) + (t * b * z - s * a) * (t * b * z - s * a);
    RodriguesRowDot11(a, b, z, t, s);
    assert Dot(RodriguesRow1(a, b, z, t, s), RodriguesRow1(a, b, z, t, s)) == p;
    RodriguesGramPoly11(a, b, z, t, s, n, k, p);
  }

  lemma RodriguesGram22(a: real, b: real, z: real, t: real, s: real, n: real, k: real)
    requires n == a * a + b * b + z * z && k == t * t * n - 2.0 * t + s * s
    ensures Dot(RodriguesRow2(a, b, z, t, s), RodriguesRow2(a, b, z, t, s)) == 1.0 + (a * a + b * b) * k
  {
    var p := (t * a * z - s * b) * (t * a * z - s * b) + (t * b * z + s * a) * (t * b * z + s * a) + (1.0 - t * (a * a + b * b)) * (1.0 - t * (a * a + b * b));
    RodriguesRowDot22(a, b, z, t, s);
    assert Dot(RodriguesRow2(a, b, z, t, s), RodriguesRow2(a, b, z, t, s)) == p;
    RodriguesGramPoly22(a, b, z, t, s, n, k, p);
  }

  lemma RodriguesGram01(a: real, b: real, z: real, t: real, s: real, n: real, k: real)
    requires n == a * a + b * b + z * z && k == t * t * n - 2.0 * t + s * s
    ensures Dot(RodriguesRow0(a, b, z, t, s), RodriguesRow1(a, b, z, t, s)) == - a * b * k
  {
    var p := (1.0 - t * (b * b + z * z)) * (t * a * b + s * z) + (t * a * b - s * z) * (1.0 - t * (a * a + z * z)) + (t * a * z + s * b) * (t * b * z - s * a);
    RodriguesRowDot01(a, b, z, t, s);
    assert Dot(RodriguesRow0(a, b, z, t, s), RodriguesRow1(a, b, z, t, s)) == p;
    RodriguesGramPoly01(a, b, z, t, s, n, k, p);
  }

  lemma RodriguesGram02(a: real, b: real, z: real, t: real, s: real, n: real, k: real)
    requires n == a * a + b * b + z * z && k == t * t * n - 2.0 * t + s * s
    ensures Dot(RodriguesRow0(a, b, z, t, s), RodriguesRow2(a, b, z, t, s)) == - a * z * k
  {
    var p := (1.0 - t * (b * b + z * z)) * (t * a * z - s * b) + (t * a * b - s * z) * (t * b * z + s * a) + (t * a * z + s * b) * (1.0 - t * (a * a + b * b));
    RodriguesRowDot02(a, b, z, t, s);
    assert Dot(RodriguesRow0(a, b, z, t, s), RodriguesRow2(a, b, z, t, s)) == p;
    RodriguesGramPoly02(a, b, z, t, s, n, k, p);
  }

  lemma RodriguesGram12(a: real, b: real, z: real, t: real, s: real, n: real, k: real)
    requires n == a * a + b * b + z * z && k == t * t * n - 2.0 * t + s * s
    ensures Dot(RodriguesRow1(a, b, z, t, s), RodriguesRow2(a, b, z, t, s)) == - b * z * k
  {
    var p := (t * a * b + s * z) * (t * a * z - s * b) + (1.0 - t * (a * a + z * z)) * (t * b * z + s * a) + (t * b * z - s * a) * (1.0 - t * (a * a + b * b));
    RodriguesRowDot12(a, b, z, t, s);
    assert Dot(RodriguesRow1(a, b, z, t, s), RodriguesRow2(a, b, z, t, s)) == p;
    RodriguesGramPoly12(a, b, z, t, s, n, k, p);
  }

  lemma RodriguesRowsOrthonormal(a: real, b: real, z: real, t: real, s: real)
    requires a * a + b * b + z * z == 1.0
    requires t * t - 2.0 * t + s * s == 0.0
    ensures NormSq(RodriguesRow0(a, b, z, t, s)) == 1.0
    ensures NormSq(RodriguesRow1(a, b, z, t, s)) == 1.0
    ensures NormSq(RodriguesRow2(a, b, z, t, s)) == 1.0
    ensures Dot(RodriguesRow0(a, b, z, t, s), RodriguesRow1(a, b, z, t, s)) == 0.0
    ensures Dot(RodriguesRow0(a, b, z, t, s), RodriguesRow2(a, b, z, t, s)) == 0.0
    ensures Dot(RodriguesRow1(a, b, z, t, s), RodriguesRow2(a, b, z, t, s)) == 0.0
  {
    RodriguesGram00(a, b, z, t, s, 1.0, 0.0);
    RodriguesGram11(a, b, z, t, s, 1.0, 0.0);
    RodriguesGram22(a, b, z, t, s, 1.0, 0.0);
    RodriguesGram01(a, b, z, t, s, 1.0, 0.0);
    RodriguesGram02(a, b, z, t, s, 1.0, 0.0);
    RodriguesGram12(a, b, z, t, s, 1.0, 0.0);
  }

  /** With a unit axis and (c, s) on the unit circle, the rotation matrix is
      orthonormal: R * R^T == I, so it turns an orthonormal frame into one. */
  lemma RotationIsOrthonormal(v: Vec3, c: real, s: real)
    requires NormSq(v) == 1.0
    requires c * c + s * s == 1.0
    ensures MatMul(Rotation(v, c, s), Transpose(Rotation(v, c, s))) == Identity
  {
    var t := 1.0 - c;
    assert t * t - 2.0 * t + s * s == 0.0;
    RodriguesRowsOrthonormal(v.x, v.y, v.z, t, s);
  }
}
