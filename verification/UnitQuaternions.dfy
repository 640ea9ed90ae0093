/** Every unit quaternion gives a rotation matrix, and both routines return it up to sign. */
module UnitQuaternions {
  import opened Rotations
  import opened Quaternions
  import opened QuaternionRoutines

  // ----- Products of named entries -----

  lemma SquareDiagonal(m: real, a: real)
    requires m == 1.0 - 2.0 * a
    ensures m * m == 1.0 - 4.0 * a + 4.0 * (a * a)
  {
  }

  lemma DiagonalTimesMixed(m: real, a: real, n: real, b: real)
    requires m == 1.0 - 2.0 * a && n == 2.0 * b
    ensures m * n == 2.0 * b - 4.0 * (a * b)
  {
  }

  lemma DiagonalTimesDiagonal(m: real, a: real, n: real, b: real)
    requires m == 1.0 - 2.0 * a && n == 1.0 - 2.0 * b
    ensures m * n == 1.0 - 2.0 * a - 2.0 * b + 4.0 * (a * b)
  {
  }

  lemma MixedTimesMixed(m: real, a: real, n: real, b: real)
    requires m == 2.0 * a && n == 2.0 * b
    ensures m * n == 4.0 * (a * b)
  {
  }

  // ----- Polynomial identities in the components -----

  lemma TwoSquares(x: real, y: real, z: real, w: real)
    ensures (x * y + z * w) * (x * y + z * w) + (x * z - y * w) * (x * z - y * w)
         == (x * x + w * w) * (y * y + z * z)
  {
  }

  lemma OrthogonalIdentity(x: real, y: real, z: real, w: real)
    ensures 2.0 * (x * y - z * w) - 4.0 * ((y * y + z * z) * (x * y - z * w))
          + 2.0 * (x * y + z * w) - 4.0 * ((x * x + z * z) * (x * y + z * w))
          + 4.0 * ((x * z - y * w) * (y * z + x * w))
         == 4.0 * (x * y) * (1.0 - (x * x + y * y + z * z + w * w))
  {
  }

  lemma DiagonalIdentity(x: real, y: real, z: real, w: real)
    ensures 1.0 - 2.0 * (x * x + z * z) - 2.0 * (x * x + y * y) + 4.0 * ((x * x + z * z) * (x * x + y * y))
          - 4.0 * ((y * z - x * w) * (y * z + x * w))
         == 1.0 - 2.0 * (y * y + z * z) + 4.0 * (x * x) * (x * x + y * y + z * z + w * w - 1.0)
  {
  }

  lemma MixedIdentity(x: real, y: real, z: real, w: real)
    ensures 4.0 * ((y * z - x * w) * (x * z - y * w))
          - (2.0 * (x * y + z * w) - 4.0 * ((x * x + y * y) * (x * y + z * w)))
         == 2.0 * (x * y - z * w) + 4.0 * (x * y) * (x * x + y * y + z * z + w * w - 1.0)
  {
  }

  // ----- Entries of the matrix of (x, y, z, w), unit length assumed -----

  lemma UnitLength(x: real, y: real, z: real, w: real, e0: real, e1: real, e2: real)
    requires x * x + y * y + z * z + w * w == 1.0
    requires e0 == 1.0 - 2.0 * (y * y + z * z) && e1 == 2.0 * (x * y + z * w) && e2 == 2.0 * (x * z - y * w)
    ensures e0 * e0 + e1 * e1 + e2 * e2 == 1.0
  {
    var a, b := y * y + z * z, x * x + w * w;
    TwoSquares(x, y, z, w);
    SquareDiagonal(e0, a);
    MixedTimesMixed(e1, x * y + z * w, e1, x * y + z * w);
    MixedTimesMixed(e2, x * z - y * w, e2, x * z - y * w);
    Complement(a, b);
  }

  lemma Complement(a: real, b: real)
    requires a + b == 1.0
    ensures b * a == a - a * a
  {
  }

  lemma TimesZero(k: real, d: real)
    requires d == 0.0
    ensures k * d == 0.0
  {
  }

  lemma OrthogonalTerms(x: real, y: real, z: real, w: real)
    requires x * x + y * y + z * z + w * w == 1.0
    ensures 2.0 * (x * y - z * w) - 4.0 * ((y * y + z * z) * (x * y - z * w))
          + 2.0 * (x * y + z * w) - 4.0 * ((x * x + z * z) * (x * y + z * w))
          + 4.0 * ((x * z - y * w) * (y * z + x * w)) == 0.0
  {
    OrthogonalIdentity(x, y, z, w);
    TimesZero(4.0 * (x * y), 1.0 - (x * x + y * y + z * z + w * w));
  }

  /** The dot product of two columns, from their factors. */
  lemma ColumnsDot(a: real, p: real, b: real, q: real, r: real, s: real,
                   a0: real, a1: real, a2: real, b0: real, b1: real, b2: real)
    requires a0 == 1.0 - 2.0 * a && b0 == 2.0 * p && a1 == 2.0 * q && b1 == 1.0 - 2.0 * b
    requires a2 == 2.0 * r && b2 == 2.0 * s
    ensures a0 * b0 + a1 * b1 + a2 * b2 == 2.0 * p - 4.0 * (a * p) + 2.0 * q - 4.0 * (b * q) + 4.0 * (r * s)
  {
    DiagonalTimesMixed(a0, a, b0, p);
    DiagonalTimesMixed(b1, b, a1, q);
    MixedTimesMixed(a2, r, b2, s);
  }

  lemma ColumnsAreOrthogonal(x: real, y: real, z: real, w: real,
                             a0: real, a1: real, a2: real, b0: real, b1: real, b2: real)
    requires x * x + y * y + z * z + w * w == 1.0
    requires a0 == 1.0 - 2.0 * (y * y + z * z) && b0 == 2.0 * (x * y - z * w)
    requires a1 == 2.0 * (x * y + z * w) && b1 == 1.0 - 2.0 * (x * x + z * z)
    requires a2 == 2.0 * (x * z - y * w) && b2 == 2.0 * (y * z + x * w)
    ensures a0 * b0 + a1 * b1 + a2 * b2 == 0.0
  {
    OrthogonalTerms(x, y, z, w);
    ColumnsDot(y * y + z * z, x * y - z * w, x * x + z * z, x * y + z * w, x * z - y * w, y * z + x * w,
               a0, a1, a2, b0, b1, b2);
  }

  lemma Swap(a: real, b: real)
    ensures a * b == b * a
  {
  }

  lemma DiagonalCofactor(x: real, y: real, z: real, w: real, m11: real, m22: real, m12: real, m21: real)
    requires x * x + y * y + z * z + w * w == 1.0
    requires m11 == 1.0 - 2.0 * (x * x + z * z) && m22 == 1.0 - 2.0 * (x * x + y * y)
    requires m12 == 2.0 * (y * z - x * w) && m21 == 2.0 * (y * z + x * w)
    ensures m11 * m22 - m12 * m21 == 1.0 - 2.0 * (y * y + z * z)
  {
    DiagonalIdentity(x, y, z, w);
    DiagonalTimesDiagonal(m11, x * x + z * z, m22, x * x + y * y);
    MixedTimesMixed(m12, y * z - x * w, m21, y * z + x * w);
  }

  lemma MixedCofactor(x: real, y: real, z: real, w: real, m12: real, m20: real, m10: real, m22: real)
    requires x * x + y * y + z * z + w * w == 1.0
    requires m12 == 2.0 * (y * z - x * w) && m20 == 2.0 * (x * z - y * w)
    requires m10 == 2.0 * (x * y + z * w) && m22 == 1.0 - 2.0 * (x * x + y * y)
    ensures m12 * m20 - m10 * m22 == 2.0 * (x * y - z * w)
  {
    MixedIdentity(x, y, z, w);
    MixedTimesMixed(m12, y * z - x * w, m20, x * z - y * w);
    DiagonalTimesMixed(m22, x * x + y * y, m10, x * y + z * w);
  }

  /** (a, b, c) is a first column of the matrix of (x, y, z, w), the axes taken cyclically. */
  ghost predicate IsColumn(x: real, y: real, z: real, w: real, a: real, b: real, c: real) {
    a == 1.0 - 2.0 * (y * y + z * z) && b == 2.0 * (x * y + z * w) && c == 2.0 * (x * z - y * w)
  }

  lemma ColumnX(q: Quat, m: Mat)
    requires m == ToMatrix(q)
    ensures IsColumn(q.x, q.y, q.z, q.w, m.r0.x, m.r1.x, m.r2.x)
  {
  }

  lemma ColumnY(q: Quat, m: Mat)
    requires m == ToMatrix(q)
    ensures IsColumn(q.y, q.z, q.x, q.w, m.r1.y, m.r2.y, m.r0.y)
  {
    TurnedColumn(q.x, q.y, q.z, q.w, m.r1.y, m.r2.y, m.r0.y);
  }

  /** The column as the matrix writes it, with the axes in their own order. */
  lemma TurnedColumn(x: real, y: real, z: real, w: real, a: real, b: real, c: real)
    requires a == 1.0 - 2.0 * (x * x + z * z) && b == 2.0 * (y * z + x * w) && c == 2.0 * (x * y - z * w)
    ensures IsColumn(y, z, x, w, a, b, c)
  {
  }

  lemma ColumnZ(q: Quat, m: Mat)
    requires m == ToMatrix(q)
    ensures IsColumn(q.z, q.x, q.y, q.w, m.r2.z, m.r0.z, m.r1.z)
  {
  }

  /** The first row is the first column of the conjugate. */
  lemma RowX(q: Quat, m: Mat)
    requires m == ToMatrix(q)
    ensures IsColumn(q.x, q.y, q.z, -q.w, m.r0.x, m.r0.y, m.r0.z)
  {
  }

  lemma UnitColumn(x: real, y: real, z: real, w: real, a: real, b: real, c: real)
    requires x * x + y * y + z * z + w * w == 1.0 && IsColumn(x, y, z, w, a, b, c)
    ensures a * a + b * b + c * c == 1.0
  {
    UnitLength(x, y, z, w, a, b, c);
  }

  lemma OrthogonalPair(x: real, y: real, z: real, w: real,
                       a0: real, a1: real, a2: real, b0: real, b1: real, b2: real)
    requires x * x + y * y + z * z + w * w == 1.0
    requires IsColumn(x, y, z, w, a0, a1, a2) && IsColumn(y, z, x, w, b1, b2, b0)
    ensures ZeroDot(a0, a1, a2, b0, b1, b2)
  {
    ColumnsAreOrthogonal(x, y, z, w, a0, a1, a2, b0, b1, b2);
  }

  lemma UnitX(q: Quat, m: Mat)
    requires NormSquared(q) == 1.0 && IsColumn(q.x, q.y, q.z, q.w, m.r0.x, m.r1.x, m.r2.x)
    ensures Unit(Transpose(m).r0)
  {
    UnitColumn(q.x, q.y, q.z, q.w, m.r0.x, m.r1.x, m.r2.x);
  }

  lemma UnitY(q: Quat, m: Mat)
    requires NormSquared(q) == 1.0 && IsColumn(q.y, q.z, q.x, q.w, m.r1.y, m.r2.y, m.r0.y)
    ensures Unit(Transpose(m).r1)
  {
    UnitColumn(q.y, q.z, q.x, q.w, m.r1.y, m.r2.y, m.r0.y);
  }

  lemma UnitZ(q: Quat, m: Mat)
    requires NormSquared(q) == 1.0 && IsColumn(q.z, q.x, q.y, q.w, m.r2.z, m.r0.z, m.r1.z)
    ensures Unit(Transpose(m).r2)
  {
    UnitColumn(q.z, q.x, q.y, q.w, m.r2.z, m.r0.z, m.r1.z);
  }

  lemma PairXY(q: Quat, m: Mat)
    requires NormSquared(q) == 1.0 && IsColumn(q.x, q.y, q.z, q.w, m.r0.x, m.r1.x, m.r2.x)
    requires IsColumn(q.y, q.z, q.x, q.w, m.r1.y, m.r2.y, m.r0.y)
    ensures ZeroDot(m.r0.x, m.r1.x, m.r2.x, m.r0.y, m.r1.y, m.r2.y)
  {
    OrthogonalPair(q.x, q.y, q.z, q.w, m.r0.x, m.r1.x, m.r2.x, m.r0.y, m.r1.y, m.r2.y);
  }

  lemma PairYZ(q: Quat, m: Mat)
    requires NormSquared(q) == 1.0 && IsColumn(q.y, q.z, q.x, q.w, m.r1.y, m.r2.y, m.r0.y)
    requires IsColumn(q.z, q.x, q.y, q.w, m.r2.z, m.r0.z, m.r1.z)
    ensures ZeroDot(m.r1.y, m.r2.y, m.r0.y, m.r1.z, m.r2.z, m.r0.z)
  {
    OrthogonalPair(q.y, q.z, q.x, q.w, m.r1.y, m.r2.y, m.r0.y, m.r1.z, m.r2.z, m.r0.z);
  }

  lemma PairZX(q: Quat, m: Mat)
    requires NormSquared(q) == 1.0 && IsColumn(q.z, q.x, q.y, q.w, m.r2.z, m.r0.z, m.r1.z)
    requires IsColumn(q.x, q.y, q.z, q.w, m.r0.x, m.r1.x, m.r2.x)
    ensures ZeroDot(m.r2.z, m.r0.z, m.r1.z, m.r2.x, m.r0.x, m.r1.x)
  {
    OrthogonalPair(q.z, q.x, q.y, q.w, m.r2.z, m.r0.z, m.r1.z, m.r2.x, m.r0.x, m.r1.x);
  }

  lemma CofactorX(q: Quat, m: Mat)
    requires NormSquared(q) == 1.0 && IsColumn(q.x, q.y, q.z, q.w, m.r0.x, m.r1.x, m.r2.x)
    requires IsColumn(q.y, q.z, q.x, q.w, m.r1.y, m.r2.y, m.r0.y)
    requires IsColumn(q.z, q.x, q.y, q.w, m.r2.z, m.r0.z, m.r1.z)
    ensures Cross(m.r1, m.r2).x == m.r0.x
  {
    DiagonalCofactor(q.x, q.y, q.z, q.w, m.r1.y, m.r2.z, m.r1.z, m.r2.y);
  }

  lemma CofactorY(q: Quat, m: Mat)
    requires NormSquared(q) == 1.0 && IsColumn(q.x, q.y, q.z, q.w, m.r0.x, m.r1.x, m.r2.x)
    requires IsColumn(q.y, q.z, q.x, q.w, m.r1.y, m.r2.y, m.r0.y)
    requires IsColumn(q.z, q.x, q.y, q.w, m.r2.z, m.r0.z, m.r1.z)
    ensures Cross(m.r1, m.r2).y == m.r0.y
  {
    MixedCofactor(q.x, q.y, q.z, q.w, m.r1.z, m.r2.x, m.r1.x, m.r2.z);
  }

  lemma CofactorZ(q: Quat, m: Mat)
    requires NormSquared(q) == 1.0 && IsColumn(q.x, q.y, q.z, q.w, m.r0.x, m.r1.x, m.r2.x)
    requires IsColumn(q.y, q.z, q.x, q.w, m.r1.y, m.r2.y, m.r0.y)
    requires IsColumn(q.z, q.x, q.y, q.w, m.r2.z, m.r0.z, m.r1.z)
    ensures Cross(m.r1, m.r2).z == m.r0.z
  {
    LastCofactor(q.x, q.y, q.z, q.w, m.r1.x, m.r2.y, m.r1.y, m.r2.x);
  }

  lemma LastCofactor(x: real, y: real, z: real, w: real, m10: real, m21: real, m11: real, m20: real)
    requires x * x + y * y + z * z + w * w == 1.0
    requires m10 == 2.0 * (x * y + z * w) && m21 == 2.0 * (y * z + x * w)
    requires m11 == 1.0 - 2.0 * (x * x + z * z) && m20 == 2.0 * (x * z - y * w)
    ensures m10 * m21 - m11 * m20 == 2.0 * (x * z + y * w)
  {
    MixedCofactor(x, z, y, -w, m21, m10, m20, m11);
    Swap(m10, m21);
    Swap(m11, m20);
  }

  lemma UnitRow(q: Quat, m: Mat)
    requires NormSquared(q) == 1.0 && IsColumn(q.x, q.y, q.z, -q.w, m.r0.x, m.r0.y, m.r0.z)
    ensures Unit(m.r0)
  {
    UnitColumn(q.x, q.y, q.z, -q.w, m.r0.x, m.r0.y, m.r0.z);
  }

  lemma AllUnit(q: Quat, m: Mat)
    requires NormSquared(q) == 1.0 && m == ToMatrix(q)
    ensures UnitColumns(m)
  {
    ColumnX(q, m);
    ColumnY(q, m);
    ColumnZ(q, m);
    UnitX(q, m);
    UnitY(q, m);
    UnitZ(q, m);
  }

  lemma AllOrthogonal(q: Quat, m: Mat)
    requires NormSquared(q) == 1.0 && m == ToMatrix(q)
    ensures OrthogonalColumns(m)
  {
    ColumnX(q, m);
    ColumnY(q, m);
    ColumnZ(q, m);
    PairXY(q, m);
    PairYZ(q, m);
    PairZX(q, m);
    ZeroDotsAreOrthogonal(m);
  }

  lemma ZeroDotsAreOrthogonal(m: Mat)
    requires ZeroDot(m.r0.x, m.r1.x, m.r2.x, m.r0.y, m.r1.y, m.r2.y)
    requires ZeroDot(m.r1.y, m.r2.y, m.r0.y, m.r1.z, m.r2.z, m.r0.z)
    requires ZeroDot(m.r2.z, m.r0.z, m.r1.z, m.r2.x, m.r0.x, m.r1.x)
    ensures OrthogonalColumns(m)
  {
  }

  lemma HandednessKept(q: Quat, m: Mat)
    requires NormSquared(q) == 1.0 && m == ToMatrix(q)
    ensures RightHanded(m)
  {
    ColumnX(q, m);
    ColumnY(q, m);
    ColumnZ(q, m);
    RowX(q, m);
    UnitRow(q, m);
    CofactorX(q, m);
    CofactorY(q, m);
    CofactorZ(q, m);
  }

  /** The matrix of a unit quaternion is a rotation. */
  lemma UnitGivesRotation(q: Quat)
    requires NormSquared(q) == 1.0
    ensures IsRotation(ToMatrix(q))
  {
    AllUnit(q, ToMatrix(q));
    AllOrthogonal(q, ToMatrix(q));
    HandednessKept(q, ToMatrix(q));
    RotationFromColumns(ToMatrix(q));
  }

  // ----- One rotation, two quaternions -----

  lemma EqualOrOpposite(a: real, b: real)
    requires a * a == b * b
    ensures a == b || a == -b
  {
    assert (a - b) * (a + b) == 0.0;
  }

  /** With the pivot known up to sign, the other components follow. */
  lemma SameSign(p: real, q: real, px: real, qx: real)
    requires q != 0.0 && px * p == qx * q
    ensures p == q ==> px == qx
    ensures p == -q ==> px == -qx
  {
    assert p == q ==> (px - qx) * q == 0.0;
    assert p == -q ==> (px + qx) * q == 0.0;
  }

  lemma ByPivot(p0: real, p1: real, p2: real, p3: real, q0: real, q1: real, q2: real, q3: real)
    requires q0 != 0.0 && p0 * p0 == q0 * q0
    requires p1 * p0 == q1 * q0 && p2 * p0 == q2 * q0 && p3 * p0 == q3 * q0
    ensures (p0 == q0 && p1 == q1 && p2 == q2 && p3 == q3) || (p0 == -q0 && p1 == -q1 && p2 == -q2 && p3 == -q3)
  {
    EqualOrOpposite(p0, q0);
    SameSign(p0, q0, p1, q1);
    SameSign(p0, q0, p2, q2);
    SameSign(p0, q0, p3, q3);
  }

  lemma SomePivot(q: Quat)
    requires NormSquared(q) == 1.0
    ensures q.x != 0.0 || q.y != 0.0 || q.z != 0.0 || q.w != 0.0
  {
  }

  /** The two quaternions have the same products of components. */
  ghost predicate SameProducts(p: Quat, q: Quat) {
    && p.x * p.x == q.x * q.x && p.y * p.y == q.y * q.y && p.z * p.z == q.z * q.z && p.w * p.w == q.w * q.w
    && p.x * p.y == q.x * q.y && p.y * p.z == q.y * q.z && p.z * p.x == q.z * q.x
    && p.x * p.w == q.x * q.w && p.y * p.w == q.y * q.w && p.z * p.w == q.z * q.w
  }

  lemma SquaresAgree(p: Quat, q: Quat, m: Mat)
    requires SquareProducts(p, m) && SquareProducts(q, m)
    ensures p.x * p.x == q.x * q.x && p.y * p.y == q.y * q.y && p.z * p.z == q.z * q.z && p.w * p.w == q.w * q.w
  {
  }

  lemma MixedAgree(p: Quat, q: Quat, m: Mat)
    requires MixedProducts(p, m) && MixedProducts(q, m)
    ensures p.x * p.y == q.x * q.y && p.y * p.z == q.y * q.z && p.z * p.x == q.z * q.x
  {
  }

  lemma RealAgree(p: Quat, q: Quat, m: Mat)
    requires RealProducts(p, m) && RealProducts(q, m)
    ensures p.x * p.w == q.x * q.w && p.y * p.w == q.y * q.w && p.z * p.w == q.z * q.w
  {
  }

  lemma ProductsAgree(p: Quat, q: Quat, m: Mat)
    requires Represents(p, m) && Represents(q, m)
    ensures SameProducts(p, q)
  {
    RepresentsProducts(p, m);
    RepresentsProducts(q, m);
    SquaresAgree(p, q, m);
    MixedAgree(p, q, m);
    RealAgree(p, q, m);
  }

  // A component that is not zero fixes the others: one lemma for each choice of it.

  lemma PivotX(p: Quat, q: Quat)
    requires SameProducts(p, q) && q.x != 0.0
    ensures p == q || p == Negate(q)
  {
    ByPivot(p.x, p.y, p.z, p.w, q.x, q.y, q.z, q.w);
  }

  lemma PivotY(p: Quat, q: Quat)
    requires SameProducts(p, q) && q.y != 0.0
    ensures p == q || p == Negate(q)
  {
    ByPivot(p.y, p.z, p.x, p.w, q.y, q.z, q.x, q.w);
  }

  lemma PivotZ(p: Quat, q: Quat)
    requires SameProducts(p, q) && q.z != 0.0
    ensures p == q || p == Negate(q)
  {
    ByPivot(p.z, p.x, p.y, p.w, q.z, q.x, q.y, q.w);
  }

  lemma PivotW(p: Quat, q: Quat)
    requires SameProducts(p, q) && q.w != 0.0
    ensures p == q || p == Negate(q)
  {
    ByPivot(p.w, p.x, p.y, p.z, q.w, q.x, q.y, q.z);
  }

  /** Two unit quaternions of one rotation are equal or opposite. */
  lemma SignUnique(p: Quat, q: Quat, m: Mat)
    requires Represents(p, m) && Represents(q, m)
    ensures p == q || p == Negate(q)
  {
    SomePivot(q);
    ProductsAgree(p, q, m);
    if q.x != 0.0 {
      PivotX(p, q);
    } else if q.y != 0.0 {
      PivotY(p, q);
    } else if q.z != 0.0 {
      PivotZ(p, q);
    } else {
      PivotW(p, q);
    }
  }

  /** Both routines undo the conversion to a matrix, up to the sign that the matrix cannot tell. */
  lemma QuaternionRoundTrip(q: Quat, root: real -> real)
    requires IsRoot(root) && NormSquared(q) == 1.0
    ensures IsRotation(ToMatrix(q))
    ensures DroneQuaternion(ToMatrix(q), root) == q || DroneQuaternion(ToMatrix(q), root) == Negate(q)
    ensures MappingQuaternion(ToMatrix(q), root) == q || MappingQuaternion(ToMatrix(q), root) == Negate(q)
  {
    var m := ToMatrix(q);
    UnitGivesRotation(q);
    DroneRoundTrip(m, root);
    MappingRoundTrip(m, root);
    SignUnique(DroneQuaternion(m, root), q, m);
    SignUnique(MappingQuaternion(m, root), q, m);
  }

  lemma RoutinesAgree(m: Mat, root: real -> real)
    requires IsRoot(root) && IsRotation(m)
    ensures MappingQuaternion(m, root) == DroneQuaternion(m, root)
         || MappingQuaternion(m, root) == Negate(DroneQuaternion(m, root))
  {
    DroneRoundTrip(m, root);
    MappingRoundTrip(m, root);
    SignUnique(MappingQuaternion(m, root), DroneQuaternion(m, root), m);
  }

  // ----- Exactly when the routines agree -----

  /** Which component the routine takes its divisor from. */
  datatype Branch = ByW | ByX | ByY | ByZ

  function DroneBranch(m: Mat): Branch {
    if Trace(m) > 0.0 then ByW
    else if m.r0.x >= m.r1.y && m.r0.x >= m.r2.z then ByX
    else if m.r1.y >= m.r2.z then ByY
    else ByZ
  }

  function MappingBranch(m: Mat): Branch {
    if Trace(m) > 0.0 then ByW
    else if m.r0.x > m.r1.y && m.r0.x > m.r2.z then ByX
    else if m.r1.y > m.r2.z then ByY
    else ByZ
  }

  function Pick(q: Quat, b: Branch): real {
    match b
    case ByW => q.w
    case ByX => q.x
    case ByY => q.y
    case ByZ => q.z
  }

  /** The sum of the mirrored entries of the two axes, four times the product of those components. */
  function MirroredSum(m: Mat, a: Branch, b: Branch): real {
    match (a, b)
    case (ByX, ByY) => m.r0.y + m.r1.x
    case (ByX, ByZ) => m.r2.x + m.r0.z
    case (ByY, ByZ) => m.r1.z + m.r2.y
    case (ByY, ByX) => m.r0.y + m.r1.x
    case (ByZ, ByX) => m.r2.x + m.r0.z
    case (ByZ, ByY) => m.r1.z + m.r2.y
    case _ => 0.0
  }

  lemma MirroredSumIsProduct(q: Quat, m: Mat, a: Branch, b: Branch)
    requires MixedProducts(q, m) && a != b && !a.ByW? && !b.ByW?
    ensures MirroredSum(m, a, b) == 4.0 * (Pick(q, a) * Pick(q, b))
  {
  }

  /** The component that a branch divides by is positive in the result. */
  lemma BranchesArePositive(m: Mat, root: real -> real)
    requires IsRoot(root) && IsRotation(m)
    ensures Pick(DroneQuaternion(m, root), DroneBranch(m)) > 0.0
    ensures Pick(MappingQuaternion(m, root), MappingBranch(m)) > 0.0
  {
    DroneIsBranches(m, root);
  }

  lemma DroneIsBranches(m: Mat, root: real -> real)
    requires IsRoot(root) && IsRotation(m)
    ensures DroneQuaternion(m, root) == DroneBranches(m, root)
  {
    DroneBranchesRepresent(m, root);
    RootOfOne(root);
  }

  lemma SameBranchSameResult(m: Mat, root: real -> real)
    requires IsRoot(root) && IsRotation(m) && DroneBranch(m) == MappingBranch(m)
    ensures MappingQuaternion(m, root) == DroneQuaternion(m, root)
  {
    DroneIsBranches(m, root);
  }

  lemma SignOfProduct(a: real, b: real, c: real)
    requires 0.0 < a && c == 4.0 * (a * b)
    ensures 0.0 < c <==> 0.0 < b
  {
    assert b <= 0.0 ==> a * b <= 0.0;
  }

  lemma SignDecides(q: Quat, p: Quat, a: Branch, b: Branch, sum: real)
    requires (p == q || p == Negate(q)) && Pick(q, a) > 0.0 && Pick(p, b) > 0.0
    requires sum == 4.0 * (Pick(q, a) * Pick(q, b))
    ensures p == q <==> sum > 0.0
  {
    SignOfProduct(Pick(q, a), Pick(q, b), sum);
  }

  /** Two results for one rotation, each positive in the component of its branch. */
  lemma BranchesDecide(q: Quat, p: Quat, m: Mat, a: Branch, b: Branch)
    requires Represents(q, m) && (p == q || p == Negate(q)) && a != b && !a.ByW? && !b.ByW?
    requires Pick(q, a) > 0.0 && Pick(p, b) > 0.0
    ensures p == q <==> MirroredSum(m, a, b) > 0.0
  {
    RepresentsMixed(q, m);
    MirroredSumIsProduct(q, m, a, b);
    SignDecides(q, p, a, b, MirroredSum(m, a, b));
  }

  /** The two routines return the same quaternion, and not just the same rotation, if and only if their tie tests take
      the same branch or the two axes they take have a positive mirrored sum. */
  lemma RoutinesEqualExactlyWhen(m: Mat, root: real -> real)
    requires IsRoot(root) && IsRotation(m)
    ensures MappingQuaternion(m, root) == DroneQuaternion(m, root)
       <==> DroneBranch(m) == MappingBranch(m) || MirroredSum(m, DroneBranch(m), MappingBranch(m)) > 0.0
  {
    var q, p := DroneQuaternion(m, root), MappingQuaternion(m, root);
    if DroneBranch(m) == MappingBranch(m) {
      SameBranchSameResult(m, root);
    } else {
      DroneRoundTrip(m, root);
      RoutinesAgree(m, root);
      BranchesArePositive(m, root);
      BranchesDecide(q, p, m, DroneBranch(m), MappingBranch(m));
    }
  }

  /** The different tie tests matter: on this half turn the two routines return opposite quaternions. */
  lemma TieGivesOppositeSigns(root: real -> real)
    requires IsRoot(root)
    ensures var m := Mat(Vec(0.0, -1.0, 0.0), Vec(-1.0, 0.0, 0.0), Vec(0.0, 0.0, -1.0));
            && IsRotation(m)
            && MappingQuaternion(m, root) == Negate(DroneQuaternion(m, root)) != DroneQuaternion(m, root)
  {
    var m := Mat(Vec(0.0, -1.0, 0.0), Vec(-1.0, 0.0, 0.0), Vec(0.0, 0.0, -1.0));
    assert IsRotation(m);
    RoutinesEqualExactlyWhen(m, root);
    RoutinesAgree(m, root);
  }
}
