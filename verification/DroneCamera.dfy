/** The simulated drone camera: its frame warp and the pose it publishes describe one camera. */
module DroneCamera {
  import opened Wrappers
  import opened Rotations
  import opened Quaternions
  import opened QuaternionRoutines

  /** An angle by its cosine and sine. */
  datatype Angle = Angle(cos: real, sin: real) {
    ghost predicate Valid() {
      cos * cos + sin * sin == 1.0
    }
  }

  function RotationX(a: Angle): Mat {
    Mat(Vec(1.0, 0.0, 0.0), Vec(0.0, a.cos, -a.sin), Vec(0.0, a.sin, a.cos))
  }

  function RotationY(a: Angle): Mat {
    Mat(Vec(a.cos, 0.0, a.sin), Vec(0.0, 1.0, 0.0), Vec(-a.sin, 0.0, a.cos))
  }

  function RotationZ(a: Angle): Mat {
    Mat(Vec(a.cos, -a.sin, 0.0), Vec(a.sin, a.cos, 0.0), Vec(0.0, 0.0, 1.0))
  }

  /** Intrinsic XYZ Euler angles. */
  function EulerXyz(x: Angle, y: Angle, z: Angle): Mat {
    Mul(Mul(RotationX(x), RotationY(y)), RotationZ(z))
  }

  /** Optical axes (x right, y down, z forward) in the body frame (x forward, y left, z up). */
  const MOUNT_ROTATION := Mat(Vec(0.0, 0.0, 1.0), Vec(-1.0, 0.0, 0.0), Vec(0.0, -1.0, 0.0))

  datatype Intrinsics = Intrinsics(fx: real, fy: real, cx: real, cy: real) {
    function Matrix(): Mat {
      Mat(Vec(fx, 0.0, cx), Vec(0.0, fy, cy), Vec(0.0, 0.0, 1.0))
    }

    predicate Invertible() {
      fx != 0.0 && fy != 0.0
    }

    function InverseMatrix(): Mat
      requires Invertible()
    {
      Mat(Vec(1.0 / fx, 0.0, -cx / fx), Vec(0.0, 1.0 / fy, -cy / fy), Vec(0.0, 0.0, 1.0))
    }

    function Zoomed(zoom: real): Intrinsics {
      Intrinsics(fx * zoom, fy * zoom, cx, cy)
    }
  }

  datatype Config = Config(intrinsics: Intrinsics, eulerX: Angle, eulerY: Angle, eulerZ: Angle, translation: Vec,
                           zoomMin: real, zoomMax: real)

  /** What the flight profile gives at one timestamp: gimbal angles, and the sine that drives the zoom. */
  datatype Instant = Instant(yaw: Angle, pitch: Angle, roll: Angle, zoomSine: real) {
    ghost predicate Valid() {
      yaw.Valid() && pitch.Valid() && roll.Valid() && -1.0 <= zoomSine <= 1.0
    }
  }

  datatype Simulator = Simulator(intrinsics: Intrinsics, k0Inverse: Mat, r0: Mat, t0: Vec, zoomMin: real, zoomMax: real)
  {
    /** What the constructor establishes. */
    ghost predicate Valid() {
      intrinsics.Invertible() && k0Inverse == intrinsics.InverseMatrix() && IsRotation(r0)
    }

    function Zoom(at: Instant): real {
      0.5 * (zoomMin + zoomMax) + 0.5 * (zoomMax - zoomMin) * at.zoomSine
    }

    function VirtualIntrinsics(at: Instant): Intrinsics {
      intrinsics.Zoomed(Zoom(at))
    }

    /** From base-image pixels to virtual-view pixels, both homogeneous. */
    function Homography(at: Instant): Mat {
      Mul(Mul(VirtualIntrinsics(at).Matrix(), Transpose(GimbalRotation(at))), k0Inverse)
    }

    function CameraRotationInScene(at: Instant): Mat {
      Mul(r0, GimbalRotation(at))
    }

    function BodyRotationInScene(at: Instant): Mat {
      Mul(CameraRotationInScene(at), Transpose(MOUNT_ROTATION))
    }
  }

  /** A published pose. */
  datatype Pose = Pose(translation: Vec, rotation: Quat)

  /** The constructor: inverting the base camera matrix fails when it is singular. */
  function Start(config: Config): Result<Simulator, string> {
    if config.intrinsics.Invertible() then
      Success(Simulator(config.intrinsics, config.intrinsics.InverseMatrix(),
                        EulerXyz(config.eulerX, config.eulerY, config.eulerZ), config.translation,
                        config.zoomMin, config.zoomMax))
    else
      Failure("Singular matrix")
  }

  function GimbalRotation(at: Instant): Mat {
    Mul(Mul(RotationY(at.yaw), RotationX(at.pitch)), RotationZ(at.roll))
  }

  ghost function BodyPose(sim: Simulator, at: Instant, root: real -> real): Pose
    requires IsRoot(root) && sim.Valid() && at.Valid()
  {
    BodyRotates(sim, at);
    Pose(sim.t0, DroneQuaternion(sim.BodyRotationInScene(at), root))
  }

  ghost function CameraMount(root: real -> real): Pose
    requires IsRoot(root)
  {
    MountRotates();
    Pose(Vec(0.0, 0.0, 0.0), DroneQuaternion(MOUNT_ROTATION, root))
  }

  // ----- Everything that should be a rotation is one -----

  lemma ColumnsX(a: Angle)
    requires a.Valid()
    ensures UnitColumns(RotationX(a))
  {
  }

  lemma ColumnsY(a: Angle)
    requires a.Valid()
    ensures UnitColumns(RotationY(a))
  {
  }

  lemma ColumnsZ(a: Angle)
    requires a.Valid()
    ensures UnitColumns(RotationZ(a))
  {
  }

  lemma AxisOrthogonal(a: Angle)
    ensures OrthogonalColumns(RotationX(a)) && OrthogonalColumns(RotationY(a)) && OrthogonalColumns(RotationZ(a))
  {
  }

  lemma AxisHandedness(a: Angle)
    requires a.Valid()
    ensures RightHanded(RotationX(a)) && RightHanded(RotationY(a)) && RightHanded(RotationZ(a))
  {
  }

  lemma AxisRotations(a: Angle)
    requires a.Valid()
    ensures IsRotation(RotationX(a)) && IsRotation(RotationY(a)) && IsRotation(RotationZ(a))
  {
    ColumnsX(a);
    ColumnsY(a);
    ColumnsZ(a);
    AxisOrthogonal(a);
    AxisHandedness(a);
    RotationFromColumns(RotationX(a));
    RotationFromColumns(RotationY(a));
    RotationFromColumns(RotationZ(a));
  }

  lemma MountColumns()
    ensures UnitColumns(MOUNT_ROTATION)
  {
  }

  lemma MountOrthogonal()
    ensures OrthogonalColumns(MOUNT_ROTATION)
  {
  }

  lemma MountHandedness()
    ensures RightHanded(MOUNT_ROTATION)
  {
  }

  lemma MountRotates()
    ensures IsRotation(MOUNT_ROTATION)
  {
    MountColumns();
    MountOrthogonal();
    MountHandedness();
    RotationFromColumns(MOUNT_ROTATION);
  }

  lemma EulerRotates(x: Angle, y: Angle, z: Angle)
    requires x.Valid() && y.Valid() && z.Valid()
    ensures IsRotation(EulerXyz(x, y, z))
  {
    AxisRotations(x);
    AxisRotations(y);
    AxisRotations(z);
    RotationProduct(RotationX(x), RotationY(y));
    RotationProduct(Mul(RotationX(x), RotationY(y)), RotationZ(z));
  }

  lemma GimbalRotates(at: Instant)
    requires at.Valid()
    ensures IsRotation(GimbalRotation(at))
  {
    AxisRotations(at.yaw);
    AxisRotations(at.pitch);
    AxisRotations(at.roll);
    RotationProduct(RotationY(at.yaw), RotationX(at.pitch));
    RotationProduct(Mul(RotationY(at.yaw), RotationX(at.pitch)), RotationZ(at.roll));
  }

  lemma BodyRotates(sim: Simulator, at: Instant)
    requires sim.Valid() && at.Valid()
    ensures IsRotation(sim.CameraRotationInScene(at)) && IsRotation(sim.BodyRotationInScene(at))
  {
    GimbalRotates(at);
    MountRotates();
    RotationTranspose(MOUNT_ROTATION);
    RotationProduct(sim.r0, GimbalRotation(at));
    RotationProduct(sim.CameraRotationInScene(at), Transpose(MOUNT_ROTATION));
  }

  /** The constructor succeeds exactly on base cameras with non-zero focal lengths, and the simulator is valid then. */
  lemma StartSucceeds(config: Config)
    requires config.eulerX.Valid() && config.eulerY.Valid() && config.eulerZ.Valid()
    ensures Start(config).Success? <==> config.intrinsics.Invertible()
    ensures Start(config).Success? ==> Start(config).value.Valid()
  {
    EulerRotates(config.eulerX, config.eulerY, config.eulerZ);
  }

  // ----- The camera matrix and its inverse -----

  lemma InverseScale(f: real, c: real)
    requires f != 0.0
    ensures f * (1.0 / f) == 1.0 && (1.0 / f) * f == 1.0
    ensures f * (-c / f) == -c && (1.0 / f) * c + -c / f == 0.0
  {
  }

  lemma IntrinsicsInvert(k: Intrinsics)
    requires k.Invertible()
    ensures Mul(k.InverseMatrix(), k.Matrix()) == IDENTITY && Mul(k.Matrix(), k.InverseMatrix()) == IDENTITY
  {
    InverseScale(k.fx, k.cx);
    InverseScale(k.fy, k.cy);
  }

  /** Whichever limit is the larger, the zoom stays between the two; with positive limits it is never zero. */
  lemma ZoomStaysWithinLimits(sim: Simulator, at: Instant)
    requires at.Valid()
    ensures sim.zoomMin <= sim.Zoom(at) <= sim.zoomMax || sim.zoomMax <= sim.Zoom(at) <= sim.zoomMin
    ensures sim.zoomMin > 0.0 && sim.zoomMax > 0.0 ==> sim.Zoom(at) > 0.0
  {
    if sim.zoomMin <= sim.zoomMax {
      Swing(sim.zoomMin, sim.zoomMax, 0.5 * (sim.zoomMax - sim.zoomMin), at.zoomSine);
    } else {
      Swing(sim.zoomMax, sim.zoomMin, 0.5 * (sim.zoomMin - sim.zoomMax), -at.zoomSine);
    }
  }

  lemma Swing(low: real, high: real, half: real, sine: real)
    requires low <= high && half == 0.5 * (high - low) && -1.0 <= sine <= 1.0
    ensures low <= 0.5 * (low + high) + half * sine <= high
  {
    ScaleBound(half, sine);
  }

  lemma ScaleBound(half: real, sine: real)
    requires 0.0 <= half && -1.0 <= sine <= 1.0
    ensures -half <= half * sine <= half
  {
    assert half * (1.0 - sine) >= 0.0;
    assert half * (1.0 + sine) >= 0.0;
  }

  // ----- One camera, two descriptions -----

  lemma PublishedBody(sim: Simulator, at: Instant, root: real -> real)
    requires IsRoot(root) && sim.Valid() && at.Valid()
    ensures ToMatrix(BodyPose(sim, at, root).rotation) == sim.BodyRotationInScene(at)
  {
    BodyRotates(sim, at);
    DroneRoundTrip(sim.BodyRotationInScene(at), root);
  }

  lemma PublishedMount(root: real -> real)
    requires IsRoot(root)
    ensures ToMatrix(CameraMount(root).rotation) == MOUNT_ROTATION
  {
    MountRotates();
    DroneRoundTrip(MOUNT_ROTATION, root);
  }

  lemma MountCancels(camera: Mat)
    ensures Mul(Mul(camera, Transpose(MOUNT_ROTATION)), MOUNT_ROTATION) == camera
  {
    MulAssociative(camera, Transpose(MOUNT_ROTATION), MOUNT_ROTATION);
    MountRotates();
    MulIdentity(camera);
  }

  /** Composing the published body pose with the published mount gives the virtual camera's pose. */
  lemma MountUndone(sim: Simulator, at: Instant, root: real -> real)
    requires IsRoot(root) && sim.Valid() && at.Valid()
    ensures Mul(ToMatrix(BodyPose(sim, at, root).rotation), ToMatrix(CameraMount(root).rotation))
         == sim.CameraRotationInScene(at)
    ensures BodyPose(sim, at, root).translation == sim.t0 && CameraMount(root).translation == Vec(0.0, 0.0, 0.0)
  {
    PublishedBody(sim, at, root);
    PublishedMount(root);
    MountCancels(sim.CameraRotationInScene(at));
  }

  /** The viewing ray of a base-camera pixel, in the scene. */
  function BaseRay(sim: Simulator, pixel: Vec): Vec {
    Act(sim.r0, Act(sim.k0Inverse, pixel))
  }

  /** The viewing ray of a virtual-camera pixel as a consumer of the published data computes it. */
  ghost function PublishedRay(sim: Simulator, at: Instant, root: real -> real, pixel: Vec): Vec
    requires IsRoot(root) && sim.Valid() && at.Valid() && sim.VirtualIntrinsics(at).Invertible()
  {
    Act(Mul(ToMatrix(BodyPose(sim, at, root).rotation), ToMatrix(CameraMount(root).rotation)),
        Act(sim.VirtualIntrinsics(at).InverseMatrix(), pixel))
  }

  /** Undoing the virtual intrinsics leaves the base ray in the virtual camera's frame. */
  lemma BackProjection(sim: Simulator, at: Instant, pixel: Vec)
    requires sim.Valid() && sim.VirtualIntrinsics(at).Invertible()
    ensures Act(sim.VirtualIntrinsics(at).InverseMatrix(), Act(sim.Homography(at), pixel))
         == Act(Transpose(GimbalRotation(at)), Act(sim.k0Inverse, pixel))
  {
    var k1, k1Inverse := sim.VirtualIntrinsics(at).Matrix(), sim.VirtualIntrinsics(at).InverseMatrix();
    var turn := Transpose(GimbalRotation(at));
    var ray := Act(sim.k0Inverse, pixel);
    ActMul(Mul(k1, turn), sim.k0Inverse, pixel);
    ActMul(k1, turn, ray);
    ActMul(k1Inverse, k1, Act(turn, ray));
    IntrinsicsInvert(sim.VirtualIntrinsics(at));
    ActIdentity(Act(turn, ray));
  }

  lemma ActIdentity(v: Vec)
    ensures Act(IDENTITY, v) == v
  {
  }

  /** The virtual camera is singular exactly when the zoom is zero. */
  lemma SingularOnlyAtZeroZoom(sim: Simulator, at: Instant)
    requires sim.Valid()
    ensures sim.VirtualIntrinsics(at).Invertible() <==> sim.Zoom(at) != 0.0
  {
    var zoom := sim.Zoom(at);
    NonZeroProduct(sim.intrinsics.fx, zoom);
    NonZeroProduct(sim.intrinsics.fy, zoom);
  }

  lemma NonZeroProduct(f: real, z: real)
    requires f != 0.0
    ensures f * z != 0.0 <==> z != 0.0
  {
  }

  /**
    * Warping a base pixel, back-projecting it with the virtual intrinsics and rotating it by the published pose
    * and mount gives the scene ray of the base pixel, at every instant at which the zoom is not zero.
    */
  lemma SceneRayStable(sim: Simulator, at: Instant, root: real -> real, pixel: Vec)
    requires IsRoot(root) && sim.Valid() && at.Valid() && sim.Zoom(at) != 0.0
    ensures sim.VirtualIntrinsics(at).Invertible()
    ensures PublishedRay(sim, at, root, Act(sim.Homography(at), pixel)) == BaseRay(sim, pixel)
  {
    var gimbal := GimbalRotation(at);
    var ray := Act(sim.k0Inverse, pixel);
    SingularOnlyAtZeroZoom(sim, at);
    MountUndone(sim, at, root);
    BackProjection(sim, at, pixel);
    GimbalRotates(at);
    RotationInverse(gimbal);
    ActMul(sim.r0, gimbal, Act(Transpose(gimbal), ray));
    ActMul(gimbal, Transpose(gimbal), ray);
    ActIdentity(ray);
  }

  function Scale(v: Vec, k: real): Vec {
    Vec(v.x * k, v.y * k, v.z * k)
  }

  lemma ActScale(a: Mat, v: Vec, k: real)
    ensures Act(a, Scale(v, k)) == Scale(Act(a, v), k)
  {
    DotScale(a.r0, v, k);
    DotScale(a.r1, v, k);
    DotScale(a.r2, v, k);
  }

  lemma DotScale(u: Vec, v: Vec, k: real)
    ensures Dot(u, Scale(v, k)) == Dot(u, v) * k
  {
    ScaledSum(u.x, v.x, u.y, v.y, u.z, v.z, k);
  }

  lemma ScaledSum(a: real, x: real, b: real, y: real, c: real, z: real, k: real)
    ensures a * (x * k) + b * (y * k) + c * (z * k) == (a * x + b * y + c * z) * k
  {
  }

  /** The third homogeneous coordinate of a warped pixel is its ray's depth along the virtual optical axis. */
  lemma WarpedDepth(sim: Simulator, at: Instant, pixel: Vec)
    requires sim.Valid() && at.Valid()
    ensures Act(sim.Homography(at), pixel).z
         == Dot(Act(sim.CameraRotationInScene(at), Vec(0.0, 0.0, 1.0)), BaseRay(sim, pixel))
  {
    var k1, gimbal, ray := sim.VirtualIntrinsics(at).Matrix(), GimbalRotation(at), Act(sim.k0Inverse, pixel);
    var axis := Vec(0.0, 0.0, 1.0);
    ActMul(Mul(k1, Transpose(gimbal)), sim.k0Inverse, pixel);
    ActMul(k1, Transpose(gimbal), ray);
    assert Act(sim.Homography(at), pixel).z == Dot(Transpose(gimbal).r2, ray);
    AxisIsColumn(gimbal);
    ActMul(sim.r0, gimbal, axis);
    RotationKeeps(sim.r0, Act(gimbal, axis), ray);
  }

  lemma AxisIsColumn(m: Mat)
    ensures Act(m, Vec(0.0, 0.0, 1.0)) == Transpose(m).r2
  {
  }

  /**
    * The same for pixel coordinates: dividing by the third coordinate only rescales the ray, and by a positive
    * factor exactly when the base ray points ahead of the virtual camera.
    */
  lemma PixelSeesSameRay(sim: Simulator, at: Instant, root: real -> real, pixel: Vec)
    requires IsRoot(root) && sim.Valid() && at.Valid() && sim.Zoom(at) != 0.0
    requires Act(sim.Homography(at), pixel).z != 0.0
    ensures sim.VirtualIntrinsics(at).Invertible()
    ensures var depth := Act(sim.Homography(at), pixel).z;
            && PublishedRay(sim, at, root, Scale(Act(sim.Homography(at), pixel), 1.0 / depth))
            == Scale(BaseRay(sim, pixel), 1.0 / depth)
    ensures 1.0 / Act(sim.Homography(at), pixel).z > 0.0
       <==> Dot(Act(sim.CameraRotationInScene(at), Vec(0.0, 0.0, 1.0)), BaseRay(sim, pixel)) > 0.0
  {
    var warped := Act(sim.Homography(at), pixel);
    SingularOnlyAtZeroZoom(sim, at);
    var k1Inverse := sim.VirtualIntrinsics(at).InverseMatrix();
    var pose := Mul(ToMatrix(BodyPose(sim, at, root).rotation), ToMatrix(CameraMount(root).rotation));
    SceneRayStable(sim, at, root, pixel);
    WarpedDepth(sim, at, pixel);
    ActScale(k1Inverse, warped, 1.0 / warped.z);
    ActScale(pose, Act(k1Inverse, warped), 1.0 / warped.z);
    ReciprocalSign(warped.z);
  }

  lemma ReciprocalSign(d: real)
    requires d != 0.0
    ensures 1.0 / d > 0.0 <==> d > 0.0
  {
    var r := 1.0 / d;
    assert r * d == 1.0;
  }

  /** At zoom zero the property is lost: every base pixel is warped onto the one virtual pixel (cx, cy). */
  lemma ZeroZoomCollapses(sim: Simulator, at: Instant, pixel: Vec)
    requires sim.Valid() && sim.Zoom(at) == 0.0
    ensures var warped := Act(sim.Homography(at), pixel);
            warped == Scale(Vec(sim.intrinsics.cx, sim.intrinsics.cy, 1.0), warped.z)
  {
    var k1, turn := sim.VirtualIntrinsics(at).Matrix(), Transpose(GimbalRotation(at));
    ActMul(Mul(k1, turn), sim.k0Inverse, pixel);
    ActMul(k1, turn, Act(sim.k0Inverse, pixel));
    FlatCamera(sim.intrinsics, sim.Zoom(at), Act(turn, Act(sim.k0Inverse, pixel)));
  }

  lemma FlatCamera(k: Intrinsics, zoom: real, v: Vec)
    requires zoom == 0.0
    ensures Act(k.Zoomed(zoom).Matrix(), v) == Scale(Vec(k.cx, k.cy, 1.0), v.z)
  {
  }
}
