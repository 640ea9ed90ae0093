/** The drone simulator's and the mapping service's matrix-to-quaternion routines. */
module QuaternionRoutines {
  import opened Rotations
  import opened Quaternions

  lemma RootIsPositive(v: real, r: real)
    requires 0.0 < v && 0.0 <= r && r * r == v
    ensures 0.0 < r
  {
    assert r == 0.0 ==> r * r == 0.0;
  }

  lemma FourTimes(r: real, v: real)
    requires r * r == v
    ensures (r * 2.0) * (r * 2.0) == 4.0 * v
  {
  }

  /** Twice the root: the divisor of every branch. */
  ghost function Divisor(v: real, root: real -> real): (s: real)
    requires IsRoot(root) && 0.0 < v
    ensures 0.0 < s && s * s == 4.0 * v
  {
    RootIsPositive(v, root(v));
    FourTimes(root(v), v);
    root(v) * 2.0
  }

  ghost function Normalised(q: Quat, root: real -> real): Quat
    requires root(NormSquared(q)) != 0.0
  {
    var norm := root(NormSquared(q));
    Quat(q.x / norm, q.y / norm, q.z / norm, q.w / norm)
  }

  /** `matrix_to_quaternion` before its final normalisation. No branch divides by zero. */
  ghost function DroneBranches(m: Mat, root: real -> real): Quat
    requires IsRoot(root)
  {
    if Trace(m) > 0.0 then FromTrace(m, Divisor(1.0 + Trace(m), root))
    else if m.r0.x >= m.r1.y && m.r0.x >= m.r2.z then FromX(m, Divisor(1.0 + m.r0.x - m.r1.y - m.r2.z, root))
    else if m.r1.y >= m.r2.z then FromY(m, Divisor(1.0 + m.r1.y - m.r0.x - m.r2.z, root))
    else FromZ(m, Divisor(1.0 + m.r2.z - m.r0.x - m.r1.y, root))
  }

  ghost function DroneQuaternion(m: Mat, root: real -> real): Quat
    requires IsRoot(root) && IsRotation(m)
  {
    DroneBranchesRepresent(m, root);
    RootOfOne(root);
    Normalised(DroneBranches(m, root), root)
  }

  /** `rotation_matrix_to_quaternion`: strict comparisons and no normalisation. */
  ghost function MappingQuaternion(m: Mat, root: real -> real): Quat
    requires IsRoot(root)
  {
    if Trace(m) > 0.0 then FromTrace(m, Divisor(1.0 + Trace(m), root))
    else if m.r0.x > m.r1.y && m.r0.x > m.r2.z then FromX(m, Divisor(1.0 + m.r0.x - m.r1.y - m.r2.z, root))
    else if m.r1.y > m.r2.z then FromY(m, Divisor(1.0 + m.r1.y - m.r0.x - m.r2.z, root))
    else FromZ(m, Divisor(1.0 + m.r2.z - m.r0.x - m.r1.y, root))
  }

  lemma BranchTrace(m: Mat, root: real -> real)
    requires IsRoot(root) && IsRotation(m) && 0.0 < 1.0 + Trace(m)
    ensures Represents(FromTrace(m, Divisor(1.0 + Trace(m), root)), m)
  {
    RotationHasEntries(m);
    FromTraceRepresents(m, Divisor(1.0 + Trace(m), root));
  }

  lemma BranchX(m: Mat, root: real -> real)
    requires IsRoot(root) && IsRotation(m) && 0.0 < 1.0 + m.r0.x - m.r1.y - m.r2.z
    ensures Represents(FromX(m, Divisor(1.0 + m.r0.x - m.r1.y - m.r2.z, root)), m)
  {
    FromXRepresents(m, Divisor(1.0 + m.r0.x - m.r1.y - m.r2.z, root));
  }

  lemma BranchY(m: Mat, root: real -> real)
    requires IsRoot(root) && IsRotation(m) && 0.0 < 1.0 + m.r1.y - m.r0.x - m.r2.z
    ensures Represents(FromY(m, Divisor(1.0 + m.r1.y - m.r0.x - m.r2.z, root)), m)
  {
    FromYRepresents(m, Divisor(1.0 + m.r1.y - m.r0.x - m.r2.z, root));
  }

  lemma BranchZ(m: Mat, root: real -> real)
    requires IsRoot(root) && IsRotation(m) && 0.0 < 1.0 + m.r2.z - m.r0.x - m.r1.y
    ensures Represents(FromZ(m, Divisor(1.0 + m.r2.z - m.r0.x - m.r1.y, root)), m)
  {
    FromZRepresents(m, Divisor(1.0 + m.r2.z - m.r0.x - m.r1.y, root));
  }

  lemma DroneBranchesRepresent(m: Mat, root: real -> real)
    requires IsRoot(root) && IsRotation(m)
    ensures Represents(DroneBranches(m, root), m)
  {
    if Trace(m) > 0.0 {
      BranchTrace(m, root);
    } else if m.r0.x >= m.r1.y && m.r0.x >= m.r2.z {
      BranchX(m, root);
    } else if m.r1.y >= m.r2.z {
      BranchY(m, root);
    } else {
      BranchZ(m, root);
    }
  }

  lemma RootOfOne(root: real -> real)
    requires IsRoot(root)
    ensures root(1.0) == 1.0
  {
    SquareIsOne(root(1.0));
  }

  lemma SquareIsOne(r: real)
    requires 0.0 <= r && r * r == 1.0
    ensures r == 1.0
  {
    ZeroFactor(r - 1.0, r + 1.0);
  }

  lemma ZeroFactor(a: real, b: real)
    requires a * b == 0.0 && 0.0 < b
    ensures a == 0.0
  {
  }

  /** For every rotation matrix the drone routine gives a unit quaternion of that very rotation. */
  lemma DroneRoundTrip(m: Mat, root: real -> real)
    requires IsRoot(root) && IsRotation(m)
    ensures Represents(DroneQuaternion(m, root), m)
  {
    DroneBranchesRepresent(m, root);
    RootOfOne(root);
    var q := DroneBranches(m, root);
    assert DroneQuaternion(m, root) == q;
  }

  lemma MappingRoundTrip(m: Mat, root: real -> real)
    requires IsRoot(root) && IsRotation(m)
    ensures Represents(MappingQuaternion(m, root), m)
  {
    if Trace(m) > 0.0 {
      BranchTrace(m, root);
    } else if m.r0.x > m.r1.y && m.r0.x > m.r2.z {
      BranchX(m, root);
    } else if m.r1.y > m.r2.z {
      BranchY(m, root);
    } else {
      BranchZ(m, root);
    }
  }
}
