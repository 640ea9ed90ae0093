/** Unit quaternions and the two routines that read one off a rotation matrix. */
module Quaternions {
  import opened Rotations

  datatype Quat = Quat(x: real, y: real, z: real, w: real)

  function NormSquared(q: Quat): real {
    q.x * q.x + q.y * q.y + q.z * q.z + q.w * q.w
  }

  function Negate(q: Quat): Quat {
    Quat(-q.x, -q.y, -q.z, -q.w)
  }

  /** The rotation matrix of a unit quaternion, as every reader of the published pose builds it. */
  function ToMatrix(q: Quat): Mat {
    Mat(
      Vec(1.0 - 2.0 * (q.y * q.y + q.z * q.z), 2.0 * (q.x * q.y - q.z * q.w), 2.0 * (q.x * q.z + q.y * q.w)),
      Vec(2.0 * (q.x * q.y + q.z * q.w), 1.0 - 2.0 * (q.x * q.x + q.z * q.z), 2.0 * (q.y * q.z - q.x * q.w)),
      Vec(2.0 * (q.x * q.z - q.y * q.w), 2.0 * (q.y * q.z + q.x * q.w), 1.0 - 2.0 * (q.x * q.x + q.y * q.y)))
  }

  /** The square root on the non-negative reals. */
  ghost predicate IsRoot(root: real -> real) {
    forall v :: 0.0 <= v ==> 0.0 <= root(v) && root(v) * root(v) == v
  }

  function Trace(m: Mat): real {
    m.r0.x + m.r1.y + m.r2.z
  }

  /** q is a unit quaternion whose rotation matrix is m. */
  ghost predicate Represents(q: Quat, m: Mat) {
    NormSquared(q) == 1.0 && ToMatrix(q) == m
  }

  // ----- Scalar algebra -----

  ghost predicate UnitTriple(a: real, b: real, c: real) {
    a * a + b * b + c * c == 1.0
  }

  ghost predicate ZeroDot(a: real, b: real, c: real, p: real, q: real, r: real) {
    a * p + b * q + c * r == 0.0
  }

  /** v is the minor a d - b c. */
  ghost predicate IsMinor(v: real, a: real, b: real, c: real, d: real) {
    v == a * d - b * c
  }

  ghost predicate SquaresAre(b: real, c: real, t: real, p: real) {
    b * b + c * c == 2.0 * (t * (1.0 - p))
  }

  lemma SquareSum(p: real, q: real, r: real, e: real, f: real, g: real, h: real, b: real, c: real, t: real)
    requires b == f - h && c == g - e && t == 1.0 + p + q + r
    requires UnitTriple(p, e, f) && UnitTriple(p, g, h)
    requires IsMinor(q, r, h, f, p) && IsMinor(r, p, e, g, q)
    ensures SquaresAre(b, c, t, p)
  {
    assert b * b + c * c == f * f + h * h + g * g + e * e - 2.0 * (f * h) - 2.0 * (e * g);
    assert t * (1.0 - p) == 1.0 + q + r - p * p - p * q - p * r;
  }

  lemma MixedProduct(p: real, q: real, r: real, e: real, g: real, f: real, h: real, k: real, l: real,
                     a: real, b: real, t: real)
    requires a == l - k && b == f - h && t == 1.0 + p + q + r
    requires IsMinor(g, l, r, e, f) && IsMinor(e, k, g, r, h)
    requires ZeroDot(p, g, h, e, q, l) && ZeroDot(p, e, f, g, q, k)
    ensures a * b == t * (e + g)
  {
    assert a * b == l * f - l * h - k * f + k * h;
    assert t * (e + g) == e + g + p * e + p * g + q * e + q * g + r * e + r * g;
  }

  lemma Unscale(x: real, y: real, s: real, a: real, b: real, t: real, v: real)
    requires x * s == a && y * s == b && s * s == 4.0 * t && 0.0 < t && a * b == t * v
    ensures 4.0 * (x * y) == v
  {
    assert (x * y) * (s * s) == (x * s) * (y * s);
    assert t * (4.0 * (x * y)) == t * v;
  }

  lemma HalfScale(z: real, s: real, c: real)
    requires z * s == c
    ensures 4.0 * (z * (s / 4.0)) == c
  {
  }

  // ----- From a rotation matrix to a quaternion -----

  function Component(v: Vec, i: nat): real
    requires i < 3
  {
    if i == 0 then v.x else if i == 1 then v.y else v.z
  }

  function Entry(m: Mat, i: nat, j: nat): real
    requires i < 3 && j < 3
  {
    Component(if i == 0 then m.r0 else if i == 1 then m.r1 else m.r2, j)
  }

  function Next(i: nat): nat
    requires i < 3
    ensures Next(i) < 3
  {
    if i == 2 then 0 else i + 1
  }

  /** Row i and column i have unit length. */
  ghost predicate UnitEntries(m: Mat, i: nat)
    requires i < 3
  {
    var j, k := Next(i), Next(Next(i));
    && UnitTriple(Entry(m, i, i), Entry(m, i, j), Entry(m, i, k))
    && UnitTriple(Entry(m, i, i), Entry(m, j, i), Entry(m, k, i))
  }

  /** Rows i and i + 1 are orthogonal, and so are columns i and i + 1. */
  ghost predicate OrthogonalEntries(m: Mat, i: nat)
    requires i < 3
  {
    var j, k := Next(i), Next(Next(i));
    && ZeroDot(Entry(m, i, i), Entry(m, j, i), Entry(m, k, i), Entry(m, i, j), Entry(m, j, j), Entry(m, k, j))
    && ZeroDot(Entry(m, i, i), Entry(m, i, j), Entry(m, i, k), Entry(m, j, i), Entry(m, j, j), Entry(m, j, k))
  }

  /** Entry (i, j) is its own cofactor. */
  ghost predicate OwnCofactor(m: Mat, i: nat, j: nat)
    requires i < 3 && j < 3
  {
    var i1, i2, j1, j2 := Next(i), Next(Next(i)), Next(j), Next(Next(j));
    IsMinor(Entry(m, i, j), Entry(m, i1, j1), Entry(m, i1, j2), Entry(m, i2, j1), Entry(m, i2, j2))
  }

  /** Rows and columns are orthonormal, and every entry is its own cofactor. */
  ghost predicate RotationEntries(m: Mat) {
    && (forall i: nat :: i < 3 ==> UnitEntries(m, i))
    && (forall i: nat :: i < 3 ==> OrthogonalEntries(m, i))
    && forall i: nat, j: nat :: i < 3 && j < 3 ==> OwnCofactor(m, i, j)
  }

  function Row(m: Mat, i: nat): Vec
    requires i < 3
  {
    if i == 0 then m.r0 else if i == 1 then m.r1 else m.r2
  }

  function RowDot(m: Mat, i: nat, j: nat): real
    requires i < 3 && j < 3
  {
    Dot(Row(m, i), Row(m, j))
  }

  ghost predicate RowsOrthonormal(m: Mat) {
    forall i: nat, j: nat :: i < 3 && j < 3 ==> RowDot(m, i, j) == if i == j then 1.0 else 0.0
  }

  lemma RotationHasRows(m: Mat)
    requires IsRotation(m)
    ensures RowsOrthonormal(m) && RowsOrthonormal(Transpose(m))
  {
    RotationInverse(m);
    assert Transpose(Transpose(m)) == m;
    forall i: nat, j: nat | i < 3 && j < 3
      ensures RowDot(m, i, j) == RowDot(m, j, i)
      ensures RowDot(Transpose(m), i, j) == RowDot(Transpose(m), j, i)
    {
      DotCommutes(Row(m, i), Row(m, j));
      DotCommutes(Row(Transpose(m), i), Row(Transpose(m), j));
    }
  }

  lemma RowIsUnit(m: Mat, i: nat)
    requires RowsOrthonormal(m) && i < 3
    ensures UnitTriple(Entry(m, i, i), Entry(m, i, Next(i)), Entry(m, i, Next(Next(i))))
  {
    assert RowDot(m, i, i) == 1.0;
  }

  lemma RowsAreOrthogonal(m: Mat, i: nat)
    requires RowsOrthonormal(m) && i < 3
    ensures var j, k := Next(i), Next(Next(i));
            ZeroDot(Entry(m, i, i), Entry(m, i, j), Entry(m, i, k), Entry(m, j, i), Entry(m, j, j), Entry(m, j, k))
  {
    assert RowDot(m, i, Next(i)) == 0.0;
  }

  lemma TransposeEntry(m: Mat, i: nat, j: nat)
    requires i < 3 && j < 3
    ensures Entry(Transpose(m), i, j) == Entry(m, j, i)
  {
  }

  lemma RotationHasUnits(m: Mat, i: nat)
    requires RowsOrthonormal(m) && RowsOrthonormal(Transpose(m)) && i < 3
    ensures UnitEntries(m, i)
  {
    RowIsUnit(m, i);
    RowIsUnit(Transpose(m), i);
    TransposeEntry(m, i, i);
    TransposeEntry(m, i, Next(i));
    TransposeEntry(m, i, Next(Next(i)));
  }

  lemma RotationHasOrthogonals(m: Mat, i: nat)
    requires RowsOrthonormal(m) && RowsOrthonormal(Transpose(m)) && i < 3
    ensures OrthogonalEntries(m, i)
  {
    var j, k := Next(i), Next(Next(i));
    RowsAreOrthogonal(m, i);
    RowsAreOrthogonal(Transpose(m), i);
    TransposeEntry(m, i, i);
    TransposeEntry(m, i, j);
    TransposeEntry(m, i, k);
    TransposeEntry(m, j, i);
    TransposeEntry(m, j, j);
    TransposeEntry(m, j, k);
  }

  lemma RowIsCross(m: Mat, i: nat)
    requires Transpose(m) == Adjugate(m) && i < 3
    ensures Row(m, i) == Cross(Row(m, Next(i)), Row(m, Next(Next(i))))
  {
    assert Transpose(Transpose(m)) == m;
  }

  lemma CrossComponent(u: Vec, v: Vec, j: nat)
    requires j < 3
    ensures IsMinor(Component(Cross(u, v), j), Component(u, Next(j)), Component(u, Next(Next(j))),
                    Component(v, Next(j)), Component(v, Next(Next(j))))
  {
  }

  lemma RotationHasCofactors(m: Mat, i: nat, j: nat)
    requires Transpose(m) == Adjugate(m) && i < 3 && j < 3
    ensures OwnCofactor(m, i, j)
  {
    RowIsCross(m, i);
    CrossComponent(Row(m, Next(i)), Row(m, Next(Next(i))), j);
  }

  lemma RotationHasEntries(m: Mat)
    requires IsRotation(m)
    ensures RotationEntries(m)
  {
    RotationInverse(m);
    RotationHasRows(m);
    forall i: nat | i < 3 ensures UnitEntries(m, i) && OrthogonalEntries(m, i) {
      RotationHasUnits(m, i);
      RotationHasOrthogonals(m, i);
    }
    forall i: nat, j: nat | i < 3 && j < 3 ensures OwnCofactor(m, i, j) {
      RotationHasCofactors(m, i, j);
    }
  }

  /** The differences of mirrored entries, which Shepperd's method divides by s. */
  function Skew(m: Mat, i: nat): real
    requires i < 3
  {
    Entry(m, Next(Next(i)), Next(i)) - Entry(m, Next(i), Next(Next(i)))
  }

  lemma SkewMixed(m: Mat, i: nat, t: real)
    requires RotationEntries(m) && i < 3 && t == 1.0 + Trace(m)
    ensures Skew(m, i) * Skew(m, Next(i)) == t * (Entry(m, i, Next(i)) + Entry(m, Next(i), i))
  {
    var j, k := Next(i), Next(Next(i));
    assert OrthogonalEntries(m, i) && OwnCofactor(m, i, j) && OwnCofactor(m, j, i);
    MixedProduct(Entry(m, i, i), Entry(m, j, j), Entry(m, k, k), Entry(m, i, j), Entry(m, j, i),
                 Entry(m, i, k), Entry(m, k, i), Entry(m, j, k), Entry(m, k, j), Skew(m, i), Skew(m, j), t);
  }

  /** i, j, k are the three axes in cyclic order. */
  predicate Cyclic(i: nat, j: nat, k: nat) {
    i < 3 && j == Next(i) && k == Next(j) && i == Next(k)
  }

  lemma SquareFacts(m: Mat, i: nat, j: nat, k: nat)
    requires RotationEntries(m) && Cyclic(i, j, k)
    ensures UnitTriple(Entry(m, i, i), Entry(m, i, j), Entry(m, i, k))
    ensures UnitTriple(Entry(m, i, i), Entry(m, j, i), Entry(m, k, i))
    ensures IsMinor(Entry(m, j, j), Entry(m, k, k), Entry(m, k, i), Entry(m, i, k), Entry(m, i, i))
    ensures IsMinor(Entry(m, k, k), Entry(m, i, i), Entry(m, i, j), Entry(m, j, i), Entry(m, j, j))
  {
    assert UnitEntries(m, i) && OwnCofactor(m, j, j) && OwnCofactor(m, k, k);
  }

  lemma SkewEntries(m: Mat, i: nat, j: nat, k: nat)
    requires Cyclic(i, j, k)
    ensures Skew(m, j) == Entry(m, i, k) - Entry(m, k, i) && Skew(m, k) == Entry(m, j, i) - Entry(m, i, j)
    ensures Trace(m) == Entry(m, i, i) + Entry(m, j, j) + Entry(m, k, k)
  {
  }

  lemma SkewSquaresBut(m: Mat, i: nat, j: nat, k: nat, t: real)
    requires RotationEntries(m) && Cyclic(i, j, k) && t == 1.0 + Trace(m)
    ensures SquaresAre(Skew(m, j), Skew(m, k), t, Entry(m, i, i))
  {
    SquareFacts(m, i, j, k);
    SkewEntries(m, i, j, k);
    SquareSum(Entry(m, i, i), Entry(m, j, j), Entry(m, k, k), Entry(m, i, j), Entry(m, i, k),
              Entry(m, j, i), Entry(m, k, i), Skew(m, j), Skew(m, k), t);
  }

  lemma SkewSquare(m: Mat, i: nat, j: nat, k: nat, t: real)
    requires RotationEntries(m) && Cyclic(i, j, k) && t == 1.0 + Trace(m)
    ensures Skew(m, i) * Skew(m, i) == t * (1.0 + Entry(m, i, i) - Entry(m, j, j) - Entry(m, k, k))
  {
    SkewSquaresBut(m, i, j, k, t);
    SkewSquaresBut(m, j, k, i, t);
    SkewSquaresBut(m, k, i, j, t);
    Spread(t, Entry(m, i, i), Entry(m, j, j), Entry(m, k, k), Skew(m, i), Skew(m, j), Skew(m, k));
  }

  lemma Spread(t: real, p: real, q: real, r: real, a: real, b: real, c: real)
    requires SquaresAre(b, c, t, p) && SquaresAre(c, a, t, q) && SquaresAre(a, b, t, r)
    ensures a * a == t * (1.0 + p - q - r)
  {
    assert t * (1.0 - q) + t * (1.0 - r) - t * (1.0 - p) == t * (1.0 + p - q - r);
  }

  /** The quaternion read off the trace: s is four times its real part. */
  function FromTrace(m: Mat, s: real): Quat
    requires s != 0.0
  {
    Quat((m.r2.y - m.r1.z) / s, (m.r0.z - m.r2.x) / s, (m.r1.x - m.r0.y) / s, 0.25 * s)
  }

  /** s is the divisor that the trace calls for. */
  ghost predicate TraceDivisor(m: Mat, s: real) {
    0.0 < s && s * s == 4.0 * (1.0 + Trace(m))
  }

  lemma UnscaleOne(a: real, b: real, s: real, t: real, v: real)
    requires 0.0 < s && s * s == 4.0 * t && a * b == t * v
    ensures 4.0 * ((a / s) * (b / s)) == v
  {
    PositiveProduct(s, s, 4.0 * t);
    var x, y := a / s, b / s;
    assert x * s == a && y * s == b;
    Unscale(x, y, s, a, b, t, v);
  }

  lemma PositiveProduct(a: real, b: real, v: real)
    requires 0.0 < a && 0.0 < b && a * b == v
    ensures 0.0 < v
  {
  }

  lemma ProductsMixed(m: Mat, i: nat, s: real)
    requires RotationEntries(m) && TraceDivisor(m, s) && i < 3
    ensures 4.0 * ((Skew(m, i) / s) * (Skew(m, Next(i)) / s)) == Entry(m, i, Next(i)) + Entry(m, Next(i), i)
  {
    SkewMixed(m, i, 1.0 + Trace(m));
    UnscaleOne(Skew(m, i), Skew(m, Next(i)), s, 1.0 + Trace(m), Entry(m, i, Next(i)) + Entry(m, Next(i), i));
  }

  lemma ProductsSquare(m: Mat, i: nat, j: nat, k: nat, s: real)
    requires RotationEntries(m) && TraceDivisor(m, s) && Cyclic(i, j, k)
    ensures 4.0 * ((Skew(m, i) / s) * (Skew(m, i) / s)) == 1.0 + Entry(m, i, i) - Entry(m, j, j) - Entry(m, k, k)
  {
    SkewSquare(m, i, j, k, 1.0 + Trace(m));
    UnscaleOne(Skew(m, i), Skew(m, i), s, 1.0 + Trace(m), 1.0 + Entry(m, i, i) - Entry(m, j, j) - Entry(m, k, k));
  }

  ghost predicate MixedProducts(q: Quat, m: Mat) {
    && 4.0 * (q.x * q.y) == m.r0.y + m.r1.x
    && 4.0 * (q.y * q.z) == m.r1.z + m.r2.y
    && 4.0 * (q.z * q.x) == m.r2.x + m.r0.z
  }

  ghost predicate SquareProducts(q: Quat, m: Mat) {
    && 4.0 * (q.x * q.x) == 1.0 + m.r0.x - m.r1.y - m.r2.z
    && 4.0 * (q.y * q.y) == 1.0 + m.r1.y - m.r2.z - m.r0.x
    && 4.0 * (q.z * q.z) == 1.0 + m.r2.z - m.r0.x - m.r1.y
    && 4.0 * (q.w * q.w) == 1.0 + Trace(m)
  }

  ghost predicate RealProducts(q: Quat, m: Mat) {
    && 4.0 * (q.x * q.w) == m.r2.y - m.r1.z
    && 4.0 * (q.y * q.w) == m.r0.z - m.r2.x
    && 4.0 * (q.z * q.w) == m.r1.x - m.r0.y
  }

  /** The ten products of components that determine a unit quaternion up to sign. */
  ghost predicate HasProducts(q: Quat, m: Mat) {
    MixedProducts(q, m) && SquareProducts(q, m) && RealProducts(q, m)
  }

  lemma RepresentsMixed(q: Quat, m: Mat)
    requires Represents(q, m)
    ensures MixedProducts(q, m)
  {
  }

  ghost predicate DiagonalEntries(q: Quat, m: Mat) {
    && m.r0.x == 1.0 - 2.0 * (q.y * q.y + q.z * q.z)
    && m.r1.y == 1.0 - 2.0 * (q.x * q.x + q.z * q.z)
    && m.r2.z == 1.0 - 2.0 * (q.x * q.x + q.y * q.y)
  }

  lemma RepresentsDiagonal(q: Quat, m: Mat)
    requires Represents(q, m)
    ensures DiagonalEntries(q, m)
  {
  }

  lemma DiagonalSquares(q: Quat, m: Mat)
    requires DiagonalEntries(q, m) && NormSquared(q) == 1.0
    ensures SquareProducts(q, m)
  {
  }

  lemma RepresentsSquares(q: Quat, m: Mat)
    requires Represents(q, m)
    ensures SquareProducts(q, m)
  {
    RepresentsDiagonal(q, m);
    DiagonalSquares(q, m);
  }

  lemma RepresentsReal(q: Quat, m: Mat)
    requires Represents(q, m)
    ensures RealProducts(q, m)
  {
  }

  lemma ProductsAreUnit(q: Quat, m: Mat)
    requires SquareProducts(q, m)
    ensures NormSquared(q) == 1.0
  {
  }

  lemma ProductsDiagonal(q: Quat, m: Mat)
    requires SquareProducts(q, m)
    ensures ToMatrix(q).r0.x == m.r0.x && ToMatrix(q).r1.y == m.r1.y && ToMatrix(q).r2.z == m.r2.z
  {
  }

  lemma ProductsOffDiagonal(q: Quat, m: Mat)
    requires MixedProducts(q, m) && RealProducts(q, m)
    ensures ToMatrix(q).r0.y == m.r0.y && ToMatrix(q).r1.x == m.r1.x
    ensures ToMatrix(q).r1.z == m.r1.z && ToMatrix(q).r2.y == m.r2.y
    ensures ToMatrix(q).r2.x == m.r2.x && ToMatrix(q).r0.z == m.r0.z
  {
  }

  lemma SameEntries(a: Mat, b: Mat)
    requires a.r0.x == b.r0.x && a.r0.y == b.r0.y && a.r0.z == b.r0.z
    requires a.r1.x == b.r1.x && a.r1.y == b.r1.y && a.r1.z == b.r1.z
    requires a.r2.x == b.r2.x && a.r2.y == b.r2.y && a.r2.z == b.r2.z
    ensures a == b
  {
  }

  lemma RepresentsProducts(q: Quat, m: Mat)
    requires Represents(q, m)
    ensures HasProducts(q, m)
  {
    RepresentsMixed(q, m);
    RepresentsSquares(q, m);
    RepresentsReal(q, m);
  }

  lemma ProductsRepresent(q: Quat, m: Mat)
    requires HasProducts(q, m)
    ensures Represents(q, m)
  {
    ProductsAreUnit(q, m);
    ProductsDiagonal(q, m);
    ProductsOffDiagonal(q, m);
    SameEntries(ToMatrix(q), m);
  }

  lemma FromTraceMixed(m: Mat, s: real)
    requires RotationEntries(m) && TraceDivisor(m, s)
    ensures MixedProducts(FromTrace(m, s), m)
  {
    ProductsMixed(m, 0, s);
    ProductsMixed(m, 1, s);
    ProductsMixed(m, 2, s);
  }

  lemma FromTraceSquares(m: Mat, s: real)
    requires RotationEntries(m) && TraceDivisor(m, s)
    ensures SquareProducts(FromTrace(m, s), m)
  {
    ProductsSquare(m, 0, 1, 2, s);
    ProductsSquare(m, 1, 2, 0, s);
    ProductsSquare(m, 2, 0, 1, s);
    QuarterSquare(s, 1.0 + Trace(m));
  }

  lemma QuarterSquare(s: real, t: real)
    requires s * s == 4.0 * t
    ensures 4.0 * ((0.25 * s) * (0.25 * s)) == t
  {
  }

  lemma FromTraceReal(m: Mat, s: real)
    requires s != 0.0
    ensures RealProducts(FromTrace(m, s), m)
  {
    var q := FromTrace(m, s);
    HalfScale(q.x, s, m.r2.y - m.r1.z);
    HalfScale(q.y, s, m.r0.z - m.r2.x);
    HalfScale(q.z, s, m.r1.x - m.r0.y);
  }

  lemma FromTraceHasProducts(m: Mat, s: real)
    requires RotationEntries(m) && TraceDivisor(m, s)
    ensures HasProducts(FromTrace(m, s), m)
  {
    FromTraceMixed(m, s);
    FromTraceSquares(m, s);
    FromTraceReal(m, s);
  }

  lemma FromTraceRepresents(m: Mat, s: real)
    requires RotationEntries(m) && TraceDivisor(m, s)
    ensures Represents(FromTrace(m, s), m)
  {
    FromTraceHasProducts(m, s);
    ProductsRepresent(FromTrace(m, s), m);
  }

  // ----- The other three branches: a half turn about one axis brings them to the trace form -----

  function Diagonal(a: real, b: real, c: real): Mat {
    Mat(Vec(a, 0.0, 0.0), Vec(0.0, b, 0.0), Vec(0.0, 0.0, c))
  }

  lemma DiagonalRotates(a: real, b: real, c: real)
    requires a * a == 1.0 && b * b == 1.0 && c * c == 1.0 && a * (b * c) == 1.0
    ensures IsRotation(Diagonal(a, b, c))
  {
  }

  lemma MulDiagonal(m: Mat, a: real, b: real, c: real)
    ensures Mul(m, Diagonal(a, b, c)) == Mat(
              Vec(m.r0.x * a, m.r0.y * b, m.r0.z * c),
              Vec(m.r1.x * a, m.r1.y * b, m.r1.z * c),
              Vec(m.r2.x * a, m.r2.y * b, m.r2.z * c))
  {
  }

  lemma TimesDiagonalRotates(m: Mat, a: real, b: real, c: real, turned: Mat)
    requires IsRotation(m) && turned == Mul(m, Diagonal(a, b, c))
    requires a * a == 1.0 && b * b == 1.0 && c * c == 1.0 && a * (b * c) == 1.0
    ensures IsRotation(turned)
  {
    DiagonalRotates(a, b, c);
    RotationProduct(m, Diagonal(a, b, c));
  }

  function FromX(m: Mat, s: real): Quat
    requires s != 0.0
  {
    Quat(0.25 * s, (m.r0.y + m.r1.x) / s, (m.r0.z + m.r2.x) / s, (m.r2.y - m.r1.z) / s)
  }

  function FromY(m: Mat, s: real): Quat
    requires s != 0.0
  {
    Quat((m.r0.y + m.r1.x) / s, 0.25 * s, (m.r1.z + m.r2.y) / s, (m.r0.z - m.r2.x) / s)
  }

  function FromZ(m: Mat, s: real): Quat
    requires s != 0.0
  {
    Quat((m.r0.z + m.r2.x) / s, (m.r1.z + m.r2.y) / s, 0.25 * s, (m.r1.x - m.r0.y) / s)
  }

  lemma Quotients(a: real, b: real, s: real)
    requires s != 0.0
    ensures (-a) / s == -(a / s) && (a - b) / s == -((b - a) / s)
  {
  }

  function TurnedX(m: Mat): Mat {
    Mat(Vec(m.r0.x, -m.r0.y, -m.r0.z), Vec(m.r1.x, -m.r1.y, -m.r1.z), Vec(m.r2.x, -m.r2.y, -m.r2.z))
  }

  lemma TurnedXIsProduct(m: Mat)
    ensures TurnedX(m) == Mul(m, Diagonal(1.0, -1.0, -1.0))
  {
    MulDiagonal(m, 1.0, -1.0, -1.0);
  }

  lemma TurnedXRotates(m: Mat)
    requires IsRotation(m)
    ensures IsRotation(TurnedX(m))
  {
    TurnedXIsProduct(m);
    TimesDiagonalRotates(m, 1.0, -1.0, -1.0, TurnedX(m));
  }

  lemma TurnedXSquares(q: Quat, m: Mat)
    requires SquareProducts(q, TurnedX(m))
    ensures SquareProducts(Quat(q.w, q.z, -q.y, -q.x), m)
  {
  }

  lemma TurnedXOthers(q: Quat, m: Mat)
    requires MixedProducts(q, TurnedX(m)) && RealProducts(q, TurnedX(m))
    ensures MixedProducts(Quat(q.w, q.z, -q.y, -q.x), m) && RealProducts(Quat(q.w, q.z, -q.y, -q.x), m)
  {
  }

  lemma TurnedXProducts(q: Quat, m: Mat)
    requires HasProducts(q, TurnedX(m))
    ensures HasProducts(Quat(q.w, q.z, -q.y, -q.x), m)
  {
    TurnedXSquares(q, m);
    TurnedXOthers(q, m);
  }

  lemma FromXRepresents(m: Mat, s: real)
    requires IsRotation(m) && 0.0 < s && s * s == 4.0 * (1.0 + m.r0.x - m.r1.y - m.r2.z)
    ensures Represents(FromX(m, s), m)
  {
    var turned := TurnedX(m);
    TurnedXRotates(m);
    RotationHasEntries(turned);
    FromTraceHasProducts(turned, s);
    var q := FromTrace(turned, s);
    TurnedXProducts(q, m);
    FromXTurned(m, s);
    ProductsRepresent(FromX(m, s), m);
  }

  lemma FromXTurned(m: Mat, s: real)
    requires s != 0.0
    ensures var q := FromTrace(TurnedX(m), s); FromX(m, s) == Quat(q.w, q.z, -q.y, -q.x)
  {
    Quotients(m.r2.y - m.r1.z, 0.0, s);
    Quotients(m.r0.z + m.r2.x, 0.0, s);
  }

  function TurnedY(m: Mat): Mat {
    Mat(Vec(-m.r0.x, m.r0.y, -m.r0.z), Vec(-m.r1.x, m.r1.y, -m.r1.z), Vec(-m.r2.x, m.r2.y, -m.r2.z))
  }

  lemma TurnedYIsProduct(m: Mat)
    ensures TurnedY(m) == Mul(m, Diagonal(-1.0, 1.0, -1.0))
  {
    MulDiagonal(m, -1.0, 1.0, -1.0);
  }

  lemma TurnedYRotates(m: Mat)
    requires IsRotation(m)
    ensures IsRotation(TurnedY(m))
  {
    TurnedYIsProduct(m);
    TimesDiagonalRotates(m, -1.0, 1.0, -1.0, TurnedY(m));
  }

  lemma TurnedYSquares(q: Quat, m: Mat)
    requires SquareProducts(q, TurnedY(m))
    ensures SquareProducts(Quat(-q.z, q.w, q.x, -q.y), m)
  {
  }

  lemma TurnedYOthers(q: Quat, m: Mat)
    requires MixedProducts(q, TurnedY(m)) && RealProducts(q, TurnedY(m))
    ensures MixedProducts(Quat(-q.z, q.w, q.x, -q.y), m) && RealProducts(Quat(-q.z, q.w, q.x, -q.y), m)
  {
  }

  lemma TurnedYProducts(q: Quat, m: Mat)
    requires HasProducts(q, TurnedY(m))
    ensures HasProducts(Quat(-q.z, q.w, q.x, -q.y), m)
  {
    TurnedYSquares(q, m);
    TurnedYOthers(q, m);
  }

  lemma FromYRepresents(m: Mat, s: real)
    requires IsRotation(m) && 0.0 < s && s * s == 4.0 * (1.0 + m.r1.y - m.r0.x - m.r2.z)
    ensures Represents(FromY(m, s), m)
  {
    var turned := TurnedY(m);
    TurnedYRotates(m);
    RotationHasEntries(turned);
    FromTraceHasProducts(turned, s);
    var q := FromTrace(turned, s);
    TurnedYProducts(q, m);
    FromYTurned(m, s);
    ProductsRepresent(FromY(m, s), m);
  }

  lemma FromYTurned(m: Mat, s: real)
    requires s != 0.0
    ensures var q := FromTrace(TurnedY(m), s); FromY(m, s) == Quat(-q.z, q.w, q.x, -q.y)
  {
    Quotients(m.r0.z - m.r2.x, 0.0, s);
    Quotients(m.r0.y + m.r1.x, 0.0, s);
  }

  function TurnedZ(m: Mat): Mat {
    Mat(Vec(-m.r0.x, -m.r0.y, m.r0.z), Vec(-m.r1.x, -m.r1.y, m.r1.z), Vec(-m.r2.x, -m.r2.y, m.r2.z))
  }

  lemma TurnedZIsProduct(m: Mat)
    ensures TurnedZ(m) == Mul(m, Diagonal(-1.0, -1.0, 1.0))
  {
    MulDiagonal(m, -1.0, -1.0, 1.0);
  }

  lemma TurnedZRotates(m: Mat)
    requires IsRotation(m)
    ensures IsRotation(TurnedZ(m))
  {
    TurnedZIsProduct(m);
    TimesDiagonalRotates(m, -1.0, -1.0, 1.0, TurnedZ(m));
  }

  lemma TurnedZSquares(q: Quat, m: Mat)
    requires SquareProducts(q, TurnedZ(m))
    ensures SquareProducts(Quat(q.y, -q.x, q.w, -q.z), m)
  {
  }

  lemma TurnedZOthers(q: Quat, m: Mat)
    requires MixedProducts(q, TurnedZ(m)) && RealProducts(q, TurnedZ(m))
    ensures MixedProducts(Quat(q.y, -q.x, q.w, -q.z), m) && RealProducts(Quat(q.y, -q.x, q.w, -q.z), m)
  {
  }

  lemma TurnedZProducts(q: Quat, m: Mat)
    requires HasProducts(q, TurnedZ(m))
    ensures HasProducts(Quat(q.y, -q.x, q.w, -q.z), m)
  {
    TurnedZSquares(q, m);
    TurnedZOthers(q, m);
  }

  lemma FromZRepresents(m: Mat, s: real)
    requires IsRotation(m) && 0.0 < s && s * s == 4.0 * (1.0 + m.r2.z - m.r0.x - m.r1.y)
    ensures Represents(FromZ(m, s), m)
  {
    var turned := TurnedZ(m);
    TurnedZRotates(m);
    RotationHasEntries(turned);
    FromTraceHasProducts(turned, s);
    var q := FromTrace(turned, s);
    TurnedZProducts(q, m);
    FromZTurned(m, s);
    ProductsRepresent(FromZ(m, s), m);
  }

  lemma FromZTurned(m: Mat, s: real)
    requires s != 0.0
    ensures var q := FromTrace(TurnedZ(m), s); FromZ(m, s) == Quat(q.y, -q.x, q.w, -q.z)
  {
    Quotients(m.r1.z + m.r2.y, 0.0, s);
    Quotients(m.r1.x - m.r0.y, 0.0, s);
  }

}
