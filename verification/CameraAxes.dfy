/** Which way the simulated camera points: the images of its axes, and what zoom does to a pixel. */
module CameraAxes {
  import opened Wrappers
  import opened Rotations
  import opened Quaternions
  import opened QuaternionRoutines
  import opened DroneCamera

  /** p times u plus q times v. */
  function Blend(p: real, u: Vec, q: real, v: Vec): Vec {
    Vec(p * u.x + q * v.x, p * u.y + q * v.y, p * u.z + q * v.z)
  }

  // ----- One axis at a time -----

  lemma TurnX(a: Angle, p: real, q: real, r: real)
    ensures Act(RotationX(a), Vec(p, q, r)) == Vec(p, a.cos * q - a.sin * r, a.sin * q + a.cos * r)
  {
  }

  lemma TurnY(a: Angle, p: real, q: real, r: real)
    ensures Act(RotationY(a), Vec(p, q, r)) == Vec(a.cos * p + a.sin * r, q, a.cos * r - a.sin * p)
  {
  }

  /** The image of a vector under three matrices, one after the other. */
  lemma ThreeTurns(a: Mat, b: Mat, c: Mat, v: Vec, v1: Vec, v2: Vec, v3: Vec)
    requires Act(c, v) == v1 && Act(b, v1) == v2 && Act(a, v2) == v3
    ensures Act(Mul(Mul(a, b), c), v) == v3
  {
    ActMul(Mul(a, b), c, v);
    ActMul(a, b, v1);
  }

  lemma RollKeepsForward(a: Angle)
    ensures Act(RotationZ(a), Vec(0.0, 0.0, 1.0)) == Vec(0.0, 0.0, 1.0)
  {
  }

  lemma RollImage(a: Angle, x: real, y: real, p: real, q: real)
    requires p == a.cos * x - a.sin * y && q == a.sin * x + a.cos * y
    ensures Act(RotationZ(a), Vec(x, y, 0.0)) == Vec(p, q, 0.0)
  {
  }

  lemma PitchColumn(a: Angle, m: Mat, v: Vec)
    requires v == Vec(0.0, 0.0, 1.0) && m.r0.z == 0.0 && m.r1.z == -a.sin && m.r2.z == a.cos
    ensures Act(m, v) == Vec(0.0, -a.sin, a.cos)
  {
  }

  lemma PitchForward(a: Angle)
    ensures Act(RotationX(a), Vec(0.0, 0.0, 1.0)) == Vec(0.0, -a.sin, a.cos)
  {
    PitchColumn(a, RotationX(a), Vec(0.0, 0.0, 1.0));
  }

  /** An axis in the plane of the third and first axis, tilted about the first. */
  lemma PitchTilts(a: Angle, p: real, r: real)
    ensures Act(RotationX(a), Vec(p, 0.0, r)) == Vec(p, -(a.sin * r), a.cos * r)
  {
  }

  lemma YawColumn(a: Angle, m: Mat, v: Vec)
    requires v == Vec(0.0, 0.0, 1.0) && m.r0.z == a.sin && m.r1.z == 0.0 && m.r2.z == a.cos
    ensures Act(m, v) == Vec(a.sin, 0.0, a.cos)
  {
  }

  lemma PitchImage(a: Angle, p: real, q: real)
    ensures Act(RotationX(a), Vec(p, q, 0.0)) == Vec(p, a.cos * q, a.sin * q)
  {
  }

  // ----- The gimbal -----

  lemma YawForward(yaw: Angle, pitch: Angle)
    ensures Act(RotationY(yaw), Vec(0.0, -pitch.sin, pitch.cos))
         == Vec(yaw.sin * pitch.cos, -pitch.sin, yaw.cos * pitch.cos)
  {
  }

  /** Whatever the roll, yaw turns the optical axis to the right and pitch upwards (the camera's y axis points down). */
  lemma OpticalAxisFollows(at: Instant)
    ensures Act(GimbalRotation(at), Vec(0.0, 0.0, 1.0))
         == Vec(at.yaw.sin * at.pitch.cos, -at.pitch.sin, at.yaw.cos * at.pitch.cos)
  {
    RollKeepsForward(at.roll);
    PitchForward(at.pitch);
    YawForward(at.yaw, at.pitch);
    ThreeTurns(RotationY(at.yaw), RotationX(at.pitch), RotationZ(at.roll), Vec(0.0, 0.0, 1.0), Vec(0.0, 0.0, 1.0),
               Vec(0.0, -at.pitch.sin, at.pitch.cos),
               Vec(at.yaw.sin * at.pitch.cos, -at.pitch.sin, at.yaw.cos * at.pitch.cos));
  }

  /** Where yaw and pitch take the right and the down axis when there is no roll. */
  function LevelRight(at: Instant): Vec {
    Vec(at.yaw.cos, 0.0, -at.yaw.sin)
  }

  function LevelDown(at: Instant): Vec {
    Vec(at.yaw.sin * at.pitch.sin, at.pitch.cos, at.yaw.cos * at.pitch.sin)
  }

  lemma Regroup(p: real, q: real, c: real, s: real, t: real)
    ensures c * p + s * (t * q) == p * c + q * (s * t)
    ensures c * (t * q) - s * p == p * -s + q * (c * t)
  {
  }

  lemma YawImage(at: Instant, p: real, q: real)
    ensures Act(RotationY(at.yaw), Vec(p, at.pitch.cos * q, at.pitch.sin * q))
         == Blend(p, LevelRight(at), q, LevelDown(at))
  {
    TurnY(at.yaw, p, at.pitch.cos * q, at.pitch.sin * q);
    Regroup(p, q, at.yaw.cos, at.yaw.sin, at.pitch.sin);
  }

  /** Roll turns the image plane about the optical axis, from right towards down: (x, y) takes the place of (p, q). */
  lemma RollTurnsImage(at: Instant, x: real, y: real, p: real, q: real)
    requires p == at.roll.cos * x - at.roll.sin * y && q == at.roll.sin * x + at.roll.cos * y
    ensures Act(GimbalRotation(at), Vec(x, y, 0.0)) == Blend(p, LevelRight(at), q, LevelDown(at))
  {
    RollImage(at.roll, x, y, p, q);
    PitchImage(at.pitch, p, q);
    YawImage(at, p, q);
    ThreeTurns(RotationY(at.yaw), RotationX(at.pitch), RotationZ(at.roll), Vec(x, y, 0.0), Vec(p, q, 0.0),
               Vec(p, at.pitch.cos * q, at.pitch.sin * q), Blend(p, LevelRight(at), q, LevelDown(at)));
  }

  predicate Level(a: Angle) {
    a.cos == 1.0 && a.sin == 0.0
  }

  lemma LevelBlends(at: Instant)
    ensures Level(at.pitch) ==> Blend(0.0, LevelRight(at), 1.0, LevelDown(at)) == Vec(0.0, 1.0, 0.0)
    ensures Level(at.yaw) ==> Blend(1.0, LevelRight(at), 0.0, LevelDown(at)) == Vec(1.0, 0.0, 0.0)
  {
  }

  /** Yaw alone keeps the down axis. */
  lemma YawKeepsDown(at: Instant)
    requires Level(at.pitch) && Level(at.roll)
    ensures Act(GimbalRotation(at), Vec(0.0, 1.0, 0.0)) == Vec(0.0, 1.0, 0.0)
  {
    RollTurnsImage(at, 0.0, 1.0, 0.0, 1.0);
    LevelBlends(at);
  }

  /** Pitch alone keeps the right axis. */
  lemma PitchKeepsRight(at: Instant)
    requires Level(at.yaw) && Level(at.roll)
    ensures Act(GimbalRotation(at), Vec(1.0, 0.0, 0.0)) == Vec(1.0, 0.0, 0.0)
  {
    RollTurnsImage(at, 1.0, 0.0, 1.0, 0.0);
    LevelBlends(at);
  }

  // ----- The base pose -----

  lemma EulerYaws(y: Angle)
    ensures Act(RotationY(y), Vec(0.0, 0.0, 1.0)) == Vec(y.sin, 0.0, y.cos)
  {
    YawColumn(y, RotationY(y), Vec(0.0, 0.0, 1.0));
  }

  lemma EulerPitches(x: Angle, y: Angle)
    ensures Act(RotationX(x), Vec(y.sin, 0.0, y.cos)) == Vec(y.sin, -(x.sin * y.cos), x.cos * y.cos)
  {
    PitchTilts(x, y.sin, y.cos);
  }

  /** The viewing direction of the base camera in the scene, whatever its third Euler angle. */
  lemma EulerForward(x: Angle, y: Angle, z: Angle)
    ensures Act(EulerXyz(x, y, z), Vec(0.0, 0.0, 1.0)) == Vec(y.sin, -(x.sin * y.cos), x.cos * y.cos)
  {
    RollKeepsForward(z);
    EulerYaws(y);
    EulerPitches(x, y);
    ThreeTurns(RotationX(x), RotationY(y), RotationZ(z), Vec(0.0, 0.0, 1.0), Vec(0.0, 0.0, 1.0),
               Vec(y.sin, 0.0, y.cos), Vec(y.sin, -(x.sin * y.cos), x.cos * y.cos));
  }

  /** Where the first two Euler angles take the right and the down axis. */
  function EulerRight(x: Angle, y: Angle): Vec {
    Vec(y.cos, x.sin * y.sin, -(x.cos * y.sin))
  }

  function EulerDown(x: Angle): Vec {
    Vec(0.0, x.cos, x.sin)
  }

  lemma RegroupEuler(p: real, q: real, c: real, s: real, t: real)
    ensures c * q - s * -(t * p) == p * (s * t) + q * c
    ensures s * q + c * -(t * p) == p * -(c * t) + q * s
  {
  }

  lemma EulerTurnsY(y: Angle, p: real, q: real)
    ensures Act(RotationY(y), Vec(p, q, 0.0)) == Vec(y.cos * p, q, -(y.sin * p))
  {
  }

  lemma EulerTurnsX(x: Angle, y: Angle, p: real, q: real)
    ensures Act(RotationX(x), Vec(y.cos * p, q, -(y.sin * p))) == Blend(p, EulerRight(x, y), q, EulerDown(x))
  {
    TurnX(x, y.cos * p, q, -(y.sin * p));
    RegroupEuler(p, q, x.cos, x.sin, y.sin);
  }

  /** The third Euler angle turns the base camera's image plane before the other two tilt it. */
  lemma EulerTurnsImage(x: Angle, y: Angle, z: Angle, a: real, b: real, p: real, q: real)
    requires p == z.cos * a - z.sin * b && q == z.sin * a + z.cos * b
    ensures Act(EulerXyz(x, y, z), Vec(a, b, 0.0)) == Blend(p, EulerRight(x, y), q, EulerDown(x))
  {
    RollImage(z, a, b, p, q);
    EulerTurnsX(x, y, p, q);
    EulerTurnsY(y, p, q);
    ThreeTurns(RotationX(x), RotationY(y), RotationZ(z), Vec(a, b, 0.0), Vec(p, q, 0.0),
               Vec(y.cos * p, q, -(y.sin * p)), Blend(p, EulerRight(x, y), q, EulerDown(x)));
  }

  /** The drone's body looks along the optical axis, with the camera's right and down axes as its right and down. */
  lemma BodyLooksForward(sim: Simulator, at: Instant)
    ensures var camera, body := sim.CameraRotationInScene(at), sim.BodyRotationInScene(at);
            && Act(body, Vec(1.0, 0.0, 0.0)) == Act(camera, Vec(0.0, 0.0, 1.0))
            && Act(body, Vec(0.0, -1.0, 0.0)) == Act(camera, Vec(1.0, 0.0, 0.0))
            && Act(body, Vec(0.0, 0.0, -1.0)) == Act(camera, Vec(0.0, 1.0, 0.0))
  {
    var camera := sim.CameraRotationInScene(at);
    ActMul(camera, Transpose(MOUNT_ROTATION), Vec(1.0, 0.0, 0.0));
    ActMul(camera, Transpose(MOUNT_ROTATION), Vec(0.0, -1.0, 0.0));
    ActMul(camera, Transpose(MOUNT_ROTATION), Vec(0.0, 0.0, -1.0));
  }

  /** In the scene the optical axis is the gimbal's, turned by the base pose. */
  lemma SceneOpticalAxis(sim: Simulator, at: Instant)
    ensures Act(sim.CameraRotationInScene(at), Vec(0.0, 0.0, 1.0))
         == Act(sim.r0, Vec(at.yaw.sin * at.pitch.cos, -at.pitch.sin, at.yaw.cos * at.pitch.cos))
  {
    ActMul(sim.r0, GimbalRotation(at), Vec(0.0, 0.0, 1.0));
    OpticalAxisFollows(at);
  }

  // ----- Projection and zoom -----

  /** The camera matrix sends a point at depth one to its pixel. */
  lemma Projects(k: Intrinsics, x: real, y: real)
    ensures Act(k.Matrix(), Vec(x, y, 1.0)) == Vec(k.fx * x + k.cx, k.fy * y + k.cy, 1.0)
  {
  }

  /** Zooming moves every pixel away from the principal point by the zoom factor, and the principal point nowhere. */
  lemma ZoomMagnifies(sim: Simulator, at: Instant, x: real, y: real)
    ensures var base := Act(sim.intrinsics.Matrix(), Vec(x, y, 1.0));
            var zoomed := Act(sim.VirtualIntrinsics(at).Matrix(), Vec(x, y, 1.0));
            && zoomed.x - sim.intrinsics.cx == sim.Zoom(at) * (base.x - sim.intrinsics.cx)
            && zoomed.y - sim.intrinsics.cy == sim.Zoom(at) * (base.y - sim.intrinsics.cy)
            && zoomed.z == base.z == 1.0
  {
    Projects(sim.intrinsics, x, y);
    Projects(sim.VirtualIntrinsics(at), x, y);
    Reorder(sim.intrinsics.fx, sim.Zoom(at), x);
    Reorder(sim.intrinsics.fy, sim.Zoom(at), y);
  }

  lemma Reorder(f: real, z: real, x: real)
    ensures (f * z) * x == z * (f * x)
  {
  }

  /** The zoom runs over its whole range with the sine: as far from its lower limit as the sine is from -1. */
  lemma ZoomFollowsSine(sim: Simulator, at: Instant)
    ensures 2.0 * (sim.Zoom(at) - sim.zoomMin) == (sim.zoomMax - sim.zoomMin) * (1.0 + at.zoomSine)
    ensures at.zoomSine == -1.0 ==> sim.Zoom(at) == sim.zoomMin
    ensures at.zoomSine == 1.0 ==> sim.Zoom(at) == sim.zoomMax
  {
  }

  // ----- Quaternions as turns -----

  /** The angle twice as large. */
  function Twice(h: Angle): Angle {
    Angle(h.cos * h.cos - h.sin * h.sin, 2.0 * (h.sin * h.cos))
  }

  lemma VanishingProducts(y: real, z: real, u: real, w: real)
    requires y == 0.0 && z == 0.0
    ensures y * y == 0.0 && z * z == 0.0 && y * z == 0.0 && u * y == 0.0 && y * u == 0.0 && u * z == 0.0 && z * u == 0.0
    ensures y * w == 0.0 && z * w == 0.0
  {
  }

  lemma DoubleCosine(h: Angle)
    requires h.Valid()
    ensures 1.0 - 2.0 * (h.sin * h.sin) == Twice(h).cos
  {
  }

  /** A quaternion along one axis is the turn about that axis by twice its half angle, in the positive sense. */
  lemma QuaternionAboutX(h: Angle, o: real)
    requires h.Valid() && o == 0.0
    ensures ToMatrix(Quat(h.sin, o, o, h.cos)) == RotationX(Twice(h))
  {
    VanishingProducts(o, o, h.sin, h.cos);
    DoubleCosine(h);
  }

  lemma QuaternionAboutY(h: Angle, o: real)
    requires h.Valid() && o == 0.0
    ensures ToMatrix(Quat(o, h.sin, o, h.cos)) == RotationY(Twice(h))
  {
    VanishingProducts(o, o, h.sin, h.cos);
    DoubleCosine(h);
  }

  lemma QuaternionAboutZ(h: Angle, o: real)
    requires h.Valid() && o == 0.0
    ensures ToMatrix(Quat(o, o, h.sin, h.cos)) == RotationZ(Twice(h))
  {
    VanishingProducts(o, o, h.sin, h.cos);
    DoubleCosine(h);
  }
}
