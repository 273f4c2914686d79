/**
 * Pose resolution (`renderSceneView` in scripts/three-sixty-video.js): the
 * head pose from the display and, for stereo, one eye's parameters, turned
 * into the state of the single shared camera.
 *
 * The rendering library's rotation conversion and its symmetric perspective
 * matrix are not modelled: a rotation is the quaternion it was derived from,
 * and a symmetric projection is the tuple it was computed from.
 */
module View {
  import opened Optional
  import opened Projection

  datatype Vec3 = Vec3(x: real, y: real, z: real)

  /** An orientation quaternion; only ever copied by this component. */
  datatype Quaternion = Quaternion(x: real, y: real, z: real, w: real)

  const IdentityQuaternion: Quaternion := Quaternion(0.0, 0.0, 0.0, 1.0)
  const Origin: Vec3 := Vec3(0.0, 0.0, 0.0)

  /** The horizontal field of view, in degrees, of the monoscopic (non-stereo) view. */
  const MonoFov: real := 45.0

  /** Head pose from the display; either part may be missing. */
  datatype Pose = Pose(orientation: Option<Quaternion>, position: Option<Vec3>)

  /** What `getEyeParameters` reports for one eye. */
  datatype EyeParameters = EyeParameters(fieldOfView: FieldOfView, offset: Vec3, renderWidth: real, renderHeight: real)

  /**
   * The camera's Euler rotation: none yet, or the one the rendering library
   * derives from a quaternion with rotation order X, Z, Y.
   */
  datatype Rotation = NoRotation | EulerXZY(quaternion: Quaternion)

  /** An aspect ratio `width / height`, kept as its two operands. */
  datatype Aspect = Aspect(width: real, height: real)

  /**
   * The camera's projection matrix: the library's symmetric perspective for
   * the given parameters, or an explicit off-axis override (16 elements,
   * column-major).
   */
  datatype ProjectionMatrix =
    | Perspective(fov: real, aspect: Aspect, near: real, far: real)
    | OffAxis(elements: seq<real>)

  /** A snapshot of the camera's fields. */
  datatype CameraState = CameraState(position: Vec3, rotation: Rotation, up: Vec3, fov: real,
                                     aspect: Aspect, near: real, far: real, projection: ProjectionMatrix)

  function Add(a: Vec3, b: Vec3): Vec3
  {
    Vec3(a.x + b.x, a.y + b.y, a.z + b.z)
  }

  /** An eye whose off-axis projection can be computed with the camera's clip planes. */
  predicate EyeRenderable(eye: EyeParameters, tanDegrees: real -> real, near: real, far: real)
  {
    NonDegenerate(Tangents(eye.fieldOfView, tanDegrees)) && near != far
  }

  /** The camera state after `renderSceneView(pose, eye)` has updated it. */
  function ResolvedView(cam: CameraState, pose: Pose, eye: Option<EyeParameters>, tanDegrees: real -> real): CameraState
    requires eye.Some? ==> EyeRenderable(eye.value, tanDegrees, cam.near, cam.far)
  {
    var orientation := pose.orientation.GetOr(IdentityQuaternion);
    var position := pose.position.GetOr(Origin);
    match eye
    case Some(e) =>
      cam.(position := Add(position, e.offset), rotation := EulerXZY(orientation),
           projection := OffAxis(ProjectionElements(Tangents(e.fieldOfView, tanDegrees), true, cam.near, cam.far)))
    case None =>
      cam.(position := position, rotation := EulerXZY(orientation),
           fov := MonoFov, projection := Perspective(MonoFov, cam.aspect, cam.near, cam.far))
  }

  /**
   * Each part of the pose is defaulted on its own: a missing orientation
   * resolves to the identity quaternion and a present one is used as given; a
   * missing position resolves to the origin (shifted by the eye offset for an
   * eye view).
   */
  lemma MissingPoseDefaults(cam: CameraState, pose: Pose, eye: Option<EyeParameters>, tanDegrees: real -> real)
    requires eye.Some? ==> EyeRenderable(eye.value, tanDegrees, cam.near, cam.far)
    ensures var r := ResolvedView(cam, pose, eye, tanDegrees);
      && (pose.orientation.None? ==> r.rotation == EulerXZY(IdentityQuaternion))
      && (pose.orientation.Some? ==> r.rotation == EulerXZY(pose.orientation.value))
      && (pose.position.None? ==> r.position == (if eye.Some? then eye.value.offset else Origin))
  {
  }

  /**
   * With an eye: the camera sits at the head position plus the eye offset,
   * takes the eye's right-handed off-axis projection over the camera's own
   * near and far planes, and keeps its field of view and clip planes.
   */
  lemma EyeViewUsesEyeOffsetAndFov(cam: CameraState, pose: Pose, eye: EyeParameters, tanDegrees: real -> real)
    requires EyeRenderable(eye, tanDegrees, cam.near, cam.far)
    ensures var r := ResolvedView(cam, pose, Some(eye), tanDegrees);
      && r.position == Add(pose.position.GetOr(Origin), eye.offset)
      && r.projection == OffAxis(ProjectionElements(Tangents(eye.fieldOfView, tanDegrees), true, cam.near, cam.far))
      && r.fov == cam.fov && r.near == cam.near && r.far == cam.far && r.aspect == cam.aspect && r.up == cam.up
  {
  }

  /**
   * Without an eye: the camera sits exactly at the head position, its field of
   * view becomes 45 degrees and its projection is the symmetric one for it.
   */
  lemma MonoViewUsesFixedFov(cam: CameraState, pose: Pose, tanDegrees: real -> real)
    ensures var r := ResolvedView(cam, pose, None, tanDegrees);
      && r.position == pose.position.GetOr(Origin)
      && r.fov == 45.0
      && r.projection == Perspective(45.0, cam.aspect, cam.near, cam.far)
      && r.near == cam.near && r.far == cam.far && r.aspect == cam.aspect && r.up == cam.up
  {
  }

  /**
   * Pose resolution overwrites position, rotation and projection: two cameras
   * that agree on field of view, aspect, up vector and clip planes resolve to
   * the same state, so the right eye's view never inherits the left eye's.
   */
  lemma ResolvedViewOverwrites(c1: CameraState, c2: CameraState, pose: Pose, eye: Option<EyeParameters>,
                               tanDegrees: real -> real)
    requires c1.fov == c2.fov && c1.aspect == c2.aspect && c1.up == c2.up
    requires c1.near == c2.near && c1.far == c2.far
    requires eye.Some? ==> EyeRenderable(eye.value, tanDegrees, c1.near, c1.far)
    ensures ResolvedView(c1, pose, eye, tanDegrees) == ResolvedView(c2, pose, eye, tanDegrees)
  {
  }

  /** The library's perspective camera: the single camera object the component renders with. */
  class Camera {
    var position: Vec3
    var rotation: Rotation
    var up: Vec3
    var fov: real
    var aspect: Aspect
    const near: real
    const far: real
    var projection: ProjectionMatrix

    function State(): CameraState
      reads this
    {
      CameraState(position, rotation, up, fov, aspect, near, far, projection)
    }

    /** A perspective camera at the origin, unrotated, with Y up and its projection computed. */
    constructor (fov: real, aspect: Aspect, near: real, far: real)
      ensures State() == CameraState(Origin, NoRotation, Vec3(0.0, 1.0, 0.0), fov, aspect, near, far,
                                     Perspective(fov, aspect, near, far))
    {
      this.position := Origin;
      this.rotation := NoRotation;
      this.up := Vec3(0.0, 1.0, 0.0);
      this.fov := fov;
      this.aspect := aspect;
      this.near := near;
      this.far := far;
      this.projection := Perspective(fov, aspect, near, far);
    }
  }
}
