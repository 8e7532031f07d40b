/** Small exact linear algebra for the NumPy arrays of the core: 2D sensor
    points, 3D points and directions, 3x3 matrices. */
module Vectors {

  datatype V2 = V2(x: real, y: real)
  datatype V3 = V3(x: real, y: real, z: real)
  /** A 3x3 matrix, row by row. */
  datatype Mat3 = Mat3(r0: V3, r1: V3, r2: V3)

  const Zero3 := V3(0.0, 0.0, 0.0)
  const Identity := Mat3(V3(1.0, 0.0, 0.0), V3(0.0, 1.0, 0.0), V3(0.0, 0.0, 1.0))

  function Add(a: V3, b: V3): V3 { V3(a.x + b.x, a.y + b.y, a.z + b.z) }
  function Sub(a: V3, b: V3): V3 { V3(a.x - b.x, a.y - b.y, a.z - b.z) }
  function Scale(k: real, a: V3): V3 { V3(k * a.x, k * a.y, k * a.z) }
  function Dot(a: V3, b: V3): real { a.x * b.x + a.y * b.y + a.z * b.z }
  function Cross(a: V3, b: V3): V3 {
    V3(a.y * b.z - a.z * b.y, a.z * b.x - a.x * b.z, a.x * b.y - a.y * b.x)
  }

  function Add2(a: V2, b: V2): V2 { V2(a.x + b.x, a.y + b.y) }
  function Scale2(k: real, a: V2): V2 { V2(k * a.x, k * a.y) }

  /** `np.matmul` of a matrix with a column vector. */
  function MulV(m: Mat3, v: V3): V3 { V3(Dot(m.r0, v), Dot(m.r1, v), Dot(m.r2, v)) }

  function Col0(m: Mat3): V3 { V3(m.r0.x, m.r1.x, m.r2.x) }
  function Col1(m: Mat3): V3 { V3(m.r0.y, m.r1.y, m.r2.y) }
  function Col2(m: Mat3): V3 { V3(m.r0.z, m.r1.z, m.r2.z) }

  /** `np.matmul` of two matrices. */
  function Mul(a: Mat3, b: Mat3): Mat3 {
    Mat3(V3(Dot(a.r0, Col0(b)), Dot(a.r0, Col1(b)), Dot(a.r0, Col2(b))),
         V3(Dot(a.r1, Col0(b)), Dot(a.r1, Col1(b)), Dot(a.r1, Col2(b))),
         V3(Dot(a.r2, Col0(b)), Dot(a.r2, Col1(b)), Dot(a.r2, Col2(b))))
  }

  lemma DotSymmetric(a: V3, b: V3)
    ensures Dot(a, b) == Dot(b, a)
  {
  }

  lemma DotNonNegative(a: V3)
    ensures Dot(a, a) >= 0.0
  {
  }

  /** Only the zero vector has a zero squared length. */
  lemma DotZero(a: V3)
    ensures Dot(a, a) == 0.0 <==> a == Zero3
  {
    if a != Zero3 {
      DotPositive(a);
    }
  }

  /** A nonzero vector has a positive squared length. */
  lemma DotPositive(a: V3)
    requires a != Zero3
    ensures Dot(a, a) > 0.0
  {
    SquareSign(a.x);
    SquareSign(a.y);
    SquareSign(a.z);
    assert Dot(a, a) == Prod(a.x, a.x) + Prod(a.y, a.y) + Prod(a.z, a.z);
  }

  /** A product kept behind a function symbol, so that sign reasoning about
      squares does not mix with the unfolding of `Dot`. */
  function Prod(a: real, b: real): real { a * b }

  /** A square is never negative, and positive unless its base is zero. */
  lemma SquareSign(x: real)
    ensures Prod(x, x) >= 0.0
    ensures x != 0.0 ==> Prod(x, x) > 0.0
  {
    if x > 0.0 {
      MulPositive(x, x);
    } else if x < 0.0 {
      MulPositive(-x, -x);
      assert Prod(-x, -x) == Prod(x, x);
    }
  }

  lemma MulPositive(a: real, b: real)
    requires a > 0.0 && b > 0.0
    ensures Prod(a, b) > 0.0
  {
  }

  lemma DotAdd(a: V3, b: V3, c: V3)
    ensures Dot(Add(a, b), c) == Dot(a, c) + Dot(b, c)
    ensures Dot(Sub(a, b), c) == Dot(a, c) - Dot(b, c)
  {
  }

  lemma DotScale(k: real, a: V3, b: V3)
    ensures Dot(Scale(k, a), b) == k * Dot(a, b)
    ensures Dot(a, Scale(k, b)) == k * Dot(a, b)
  {
  }

  /** Multiplying by the identity changes nothing. */
  lemma IdentityNeutral(m: Mat3, v: V3)
    ensures Mul(Identity, m) == m && Mul(m, Identity) == m
    ensures MulV(Identity, v) == v
  {
  }

  /** The squared length of d - t v, multiplied out. */
  lemma DotDifference(d: V3, v: V3, t: real)
    ensures Dot(Sub(d, Scale(t, v)), Sub(d, Scale(t, v)))
            == Dot(d, d) - 2.0 * t * Dot(d, v) + t * t * Dot(v, v)
  {
  }

  /** The product of d - t v with w, multiplied out. */
  lemma DotDifferenceWith(d: V3, v: V3, t: real, w: V3)
    ensures Dot(Sub(d, Scale(t, v)), w) == Dot(d, w) - t * Dot(v, w)
  {
  }

  /** Lagrange's identity: |a|^2 |b|^2 - (a.b)^2 = |a x b|^2. */
  lemma {:induction false} Lagrange(a: V3, b: V3)
    ensures Dot(a, a) * Dot(b, b) - Dot(a, b) * Dot(a, b) == Dot(Cross(a, b), Cross(a, b))
  {
    var c := Cross(a, b);
    calc {
      Dot(c, c);
      (a.y * b.z - a.z * b.y) * (a.y * b.z - a.z * b.y)
        + (a.z * b.x - a.x * b.z) * (a.z * b.x - a.x * b.z)
        + (a.x * b.y - a.y * b.x) * (a.x * b.y - a.y * b.x);
      (a.x * a.x + a.y * a.y + a.z * a.z) * (b.x * b.x + b.y * b.y + b.z * b.z)
        - (a.x * b.x + a.y * b.y + a.z * b.z) * (a.x * b.x + a.y * b.y + a.z * b.z);
    }
  }
}
