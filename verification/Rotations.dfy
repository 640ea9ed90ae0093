/** 3x3 real matrices, and what follows from being a rotation. */
module Rotations {

  datatype Vec = Vec(x: real, y: real, z: real)

  /** A matrix by its rows. */
  datatype Mat = Mat(r0: Vec, r1: Vec, r2: Vec)

  function Dot(u: Vec, v: Vec): real {
    u.x * v.x + u.y * v.y + u.z * v.z
  }

  function Cross(u: Vec, v: Vec): Vec {
    Vec(u.y * v.z - u.z * v.y, u.z * v.x - u.x * v.z, u.x * v.y - u.y * v.x)
  }

  function Transpose(a: Mat): Mat {
    Mat(Vec(a.r0.x, a.r1.x, a.r2.x), Vec(a.r0.y, a.r1.y, a.r2.y), Vec(a.r0.z, a.r1.z, a.r2.z))
  }

  /** The matrix times a column. */
  function Act(a: Mat, v: Vec): Vec {
    Vec(Dot(a.r0, v), Dot(a.r1, v), Dot(a.r2, v))
  }

  /** A row times the matrix. */
  function RowAct(u: Vec, b: Mat): Vec {
    var t := Transpose(b);
    Vec(Dot(u, t.r0), Dot(u, t.r1), Dot(u, t.r2))
  }

  function Mul(a: Mat, b: Mat): Mat {
    Mat(RowAct(a.r0, b), RowAct(a.r1, b), RowAct(a.r2, b))
  }

  const IDENTITY := Mat(Vec(1.0, 0.0, 0.0), Vec(0.0, 1.0, 0.0), Vec(0.0, 0.0, 1.0))

  function Det(a: Mat): real {
    Dot(a.r0, Cross(a.r1, a.r2))
  }

  function Adjugate(a: Mat): Mat {
    Transpose(Mat(Cross(a.r1, a.r2), Cross(a.r2, a.r0), Cross(a.r0, a.r1)))
  }

  ghost predicate IsRotation(a: Mat) {
    Mul(Transpose(a), a) == IDENTITY && Det(a) == 1.0
  }

  // ----- Vector identities -----

  lemma DotCommutes(u: Vec, v: Vec)
    ensures Dot(u, v) == Dot(v, u)
  {
  }

  /** With p = v x w and q = w x u: u . p == v . q. */
  lemma TripleProduct(u0: real, u1: real, u2: real, v0: real, v1: real, v2: real, w0: real, w1: real, w2: real,
                      p0: real, p1: real, p2: real, q0: real, q1: real, q2: real)
    requires p0 == v1 * w2 - v2 * w1 && p1 == v2 * w0 - v0 * w2 && p2 == v0 * w1 - v1 * w0
    requires q0 == w1 * u2 - w2 * u1 && q1 == w2 * u0 - w0 * u2 && q2 == w0 * u1 - w1 * u0
    ensures u0 * p0 + u1 * p1 + u2 * p2 == v0 * q0 + v1 * q1 + v2 * q2
  {
  }

  lemma TripleCycles(u: Vec, v: Vec, w: Vec)
    ensures Dot(u, Cross(v, w)) == Dot(v, Cross(w, u))
  {
    var p, q := Cross(v, w), Cross(w, u);
    TripleProduct(u.x, u.y, u.z, v.x, v.y, v.z, w.x, w.y, w.z, p.x, p.y, p.z, q.x, q.y, q.z);
  }

  lemma CrossSelf(u: Vec)
    ensures Cross(u, u) == Vec(0.0, 0.0, 0.0)
  {
  }

  lemma CrossFacts(u: Vec, v: Vec, w: Vec)
    ensures Dot(u, Cross(u, v)) == 0.0 && Dot(v, Cross(u, v)) == 0.0
    ensures Dot(u, Cross(v, w)) == Dot(v, Cross(w, u)) == Dot(w, Cross(u, v))
  {
    TripleCycles(u, v, w);
    TripleCycles(v, w, u);
    TripleCycles(v, u, u);
    TripleCycles(v, u, v);
    TripleCycles(u, v, u);
    TripleCycles(u, u, v);
    TripleCycles(v, v, u);
    CrossSelf(u);
    CrossSelf(v);
  }

  /** u times `p` minus v times `q`. */
  function Combine(u: Vec, p: real, v: Vec, q: real): Vec {
    Vec(u.x * p - v.x * q, u.y * p - v.y * q, u.z * p - v.z * q)
  }

  lemma DoubleCross(s: Vec, u: Vec, v: Vec)
    ensures Cross(s, Cross(u, v)) == Combine(u, Dot(s, v), v, Dot(s, u))
  {
    var d, sv, su := Cross(u, v), Dot(s, v), Dot(s, u);
    DoubleCrossEntry(s.x, s.y, s.z, u.x, u.y, u.z, v.x, v.y, v.z, d.y, d.z, sv, su);
    DoubleCrossEntry(s.y, s.z, s.x, u.y, u.z, u.x, v.y, v.z, v.x, d.z, d.x, sv, su);
    DoubleCrossEntry(s.z, s.x, s.y, u.z, u.x, u.y, v.z, v.x, v.y, d.x, d.y, sv, su);
  }

  lemma DoubleCrossEntry(s0: real, s1: real, s2: real, u0: real, u1: real, u2: real, v0: real, v1: real, v2: real,
                         d1: real, d2: real, sv: real, su: real)
    requires d1 == u2 * v0 - u0 * v2 && d2 == u0 * v1 - u1 * v0
    requires sv == s0 * v0 + s1 * v1 + s2 * v2 && su == s0 * u0 + s1 * u1 + s2 * u2
    ensures s1 * d2 - s2 * d1 == u0 * sv - v0 * su
  {
  }

  lemma DotCombine(r: Vec, u: Vec, p: real, v: Vec, q: real)
    ensures Dot(r, Combine(u, p, v, q)) == Dot(r, u) * p - Dot(r, v) * q
  {
    DotCombineReal(r.x, r.y, r.z, u.x, u.y, u.z, p, v.x, v.y, v.z, q, Dot(r, u), Dot(r, v));
  }

  lemma DotCombineReal(r0: real, r1: real, r2: real, u0: real, u1: real, u2: real, p: real,
                       v0: real, v1: real, v2: real, q: real, ru: real, rv: real)
    requires ru == r0 * u0 + r1 * u1 + r2 * u2 && rv == r0 * v0 + r1 * v1 + r2 * v2
    ensures r0 * (u0 * p - v0 * q) + r1 * (u1 * p - v1 * q) + r2 * (u2 * p - v2 * q) == ru * p - rv * q
  {
  }

  lemma BinetCauchy(r: Vec, s: Vec, u: Vec, v: Vec)
    ensures Dot(r, u) * Dot(s, v) - Dot(s, u) * Dot(r, v) == Dot(Cross(r, s), Cross(u, v))
  {
    TripleCycles(Cross(u, v), r, s);
    DotCommutes(Cross(r, s), Cross(u, v));
    DoubleCross(s, u, v);
    DotCombine(r, u, Dot(s, v), v, Dot(s, u));
  }

  // ----- Matrix algebra -----

  lemma Bilinear(a0: real, a1: real, a2: real,
                 b00: real, b01: real, b02: real, b10: real, b11: real, b12: real, b20: real, b21: real, b22: real,
                 c0: real, c1: real, c2: real)
    ensures (a0 * b00 + a1 * b10 + a2 * b20) * c0 + (a0 * b01 + a1 * b11 + a2 * b21) * c1
          + (a0 * b02 + a1 * b12 + a2 * b22) * c2
         == a0 * (b00 * c0 + b01 * c1 + b02 * c2) + a1 * (b10 * c0 + b11 * c1 + b12 * c2)
          + a2 * (b20 * c0 + b21 * c1 + b22 * c2)
  {
  }

  /** (a B) c == a (B c) for a row `a` and a column `c`. */
  lemma RowMatColumn(a: Vec, b: Mat, c: Vec)
    ensures Dot(RowAct(a, b), c) == Dot(a, Act(b, c))
  {
    Bilinear(a.x, a.y, a.z, b.r0.x, b.r0.y, b.r0.z, b.r1.x, b.r1.y, b.r1.z, b.r2.x, b.r2.y, b.r2.z, c.x, c.y, c.z);
  }

  lemma MulColumns(a: Mat, b: Mat)
    ensures Transpose(Mul(a, b)) ==
              Mat(Act(a, Transpose(b).r0), Act(a, Transpose(b).r1), Act(a, Transpose(b).r2))
  {
  }

  lemma MulAssociative(a: Mat, b: Mat, c: Mat)
    ensures Mul(Mul(a, b), c) == Mul(a, Mul(b, c))
  {
    RowActMul(a.r0, b, c);
    RowActMul(a.r1, b, c);
    RowActMul(a.r2, b, c);
  }

  lemma RowActMul(u: Vec, b: Mat, c: Mat)
    ensures RowAct(RowAct(u, b), c) == RowAct(u, Mul(b, c))
  {
    MulColumns(b, c);
    RowMatColumn(u, b, Transpose(c).r0);
    RowMatColumn(u, b, Transpose(c).r1);
    RowMatColumn(u, b, Transpose(c).r2);
  }

  lemma ActMul(a: Mat, b: Mat, v: Vec)
    ensures Act(Mul(a, b), v) == Act(a, Act(b, v))
  {
    RowMatColumn(a.r0, b, v);
    RowMatColumn(a.r1, b, v);
    RowMatColumn(a.r2, b, v);
  }

  lemma MulIdentity(a: Mat)
    ensures Mul(a, IDENTITY) == a && Mul(IDENTITY, a) == a
  {
  }

  lemma TransposeMul(a: Mat, b: Mat)
    ensures Transpose(Mul(a, b)) == Mul(Transpose(b), Transpose(a))
  {
    MulColumns(a, b);
    var t := Transpose(b);
    DotCommutes(a.r0, t.r0); DotCommutes(a.r1, t.r0); DotCommutes(a.r2, t.r0);
    DotCommutes(a.r0, t.r1); DotCommutes(a.r1, t.r1); DotCommutes(a.r2, t.r1);
    DotCommutes(a.r0, t.r2); DotCommutes(a.r1, t.r2); DotCommutes(a.r2, t.r2);
  }

  /** A matrix times its adjugate is its determinant times the identity. */
  lemma AdjugateInverse(a: Mat)
    requires Det(a) == 1.0
    ensures Mul(a, Adjugate(a)) == IDENTITY
  {
    CrossFacts(a.r0, a.r1, a.r2);
    CrossFacts(a.r1, a.r2, a.r0);
    CrossFacts(a.r2, a.r0, a.r1);
  }

  // ----- Rotations -----

  /** The inverse of a rotation is its transpose, and that is its adjugate. */
  lemma RotationInverse(a: Mat)
    requires IsRotation(a)
    ensures Transpose(a) == Adjugate(a)
    ensures Mul(a, Transpose(a)) == IDENTITY
  {
    AdjugateInverse(a);
    MulAssociative(Transpose(a), a, Adjugate(a));
    MulIdentity(Transpose(a));
    MulIdentity(Adjugate(a));
  }

  /** A rotation keeps dot products and cross products. */
  lemma RotationKeeps(a: Mat, u: Vec, v: Vec)
    requires IsRotation(a)
    ensures Dot(Act(a, u), Act(a, v)) == Dot(u, v)
    ensures Cross(Act(a, u), Act(a, v)) == Act(a, Cross(u, v))
  {
    RotationInverse(a);
    BinetCauchy(a.r1, a.r2, u, v);
    BinetCauchy(a.r2, a.r0, u, v);
    BinetCauchy(a.r0, a.r1, u, v);
    ActMul(Transpose(a), a, v);
    RowMatColumn(Act(a, u), a, v);
    ActTranspose(a, Act(a, u));
    ActMul(Transpose(a), a, u);
    assert Act(IDENTITY, u) == u;
  }

  lemma ActTranspose(a: Mat, u: Vec)
    ensures RowAct(u, a) == Act(Transpose(a), u)
  {
    var t := Transpose(a);
    DotCommutes(u, t.r0);
    DotCommutes(u, t.r1);
    DotCommutes(u, t.r2);
  }

  lemma DetByColumns(a: Mat)
    ensures Det(a) == Dot(Transpose(a).r0, Cross(Transpose(a).r1, Transpose(a).r2))
  {
    ColumnsDet(a.r0.x, a.r0.y, a.r0.z, a.r1.x, a.r1.y, a.r1.z, a.r2.x, a.r2.y, a.r2.z);
  }

  lemma ColumnsDet(a: real, b: real, c: real, d: real, e: real, f: real, g: real, h: real, i: real)
    ensures a * (e * i - f * h) + b * (f * g - d * i) + c * (d * h - e * g)
         == a * (e * i - h * f) + d * (h * c - b * i) + g * (b * f - e * c)
  {
  }

  lemma RotationProduct(a: Mat, b: Mat)
    requires IsRotation(a) && IsRotation(b)
    ensures IsRotation(Mul(a, b))
  {
    var c := Mul(a, b);
    TransposeMul(a, b);
    MulAssociative(Mul(Transpose(b), Transpose(a)), a, b);
    MulAssociative(Transpose(b), Transpose(a), a);
    MulIdentity(Transpose(b));
    MulColumns(a, b);
    var t := Transpose(b);
    DetByColumns(c);
    DetByColumns(b);
    RotationKeeps(a, t.r1, t.r2);
    RotationKeeps(a, t.r0, Cross(t.r1, t.r2));
  }

  lemma RotationTranspose(a: Mat)
    requires IsRotation(a)
    ensures IsRotation(Transpose(a))
  {
    RotationInverse(a);
    DetByColumns(a);
    assert Transpose(Transpose(a)) == a;
  }

  ghost predicate Unit(v: Vec) {
    Dot(v, v) == 1.0
  }

  ghost predicate Orthogonal(u: Vec, v: Vec) {
    Dot(u, v) == 0.0
  }

  ghost predicate UnitColumns(m: Mat) {
    Unit(Transpose(m).r0) && Unit(Transpose(m).r1) && Unit(Transpose(m).r2)
  }

  ghost predicate OrthogonalColumns(m: Mat) {
    && Orthogonal(Transpose(m).r0, Transpose(m).r1) && Orthogonal(Transpose(m).r1, Transpose(m).r2)
    && Orthogonal(Transpose(m).r2, Transpose(m).r0)
  }

  /** The first row is a unit vector and its own cofactor. */
  ghost predicate RightHanded(m: Mat) {
    Unit(m.r0) && Cross(m.r1, m.r2) == m.r0
  }

  lemma RotationFromColumns(m: Mat)
    requires UnitColumns(m) && OrthogonalColumns(m) && RightHanded(m)
    ensures IsRotation(m)
  {
    var t := Transpose(m);
    DotCommutes(t.r0, t.r1);
    DotCommutes(t.r1, t.r2);
    DotCommutes(t.r2, t.r0);
  }
}
