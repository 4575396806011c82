/** Arcball camera arithmetic (src/application.cpp, onMouseMove and onScroll).

    The floating-point geometry with square roots and trigonometry (mapToSphere, the
    angle-axis delta rotation, quaternion normalisation, the camera axes from mat3_cast,
    lookAt and the perspective projection) is not computed here: it is a `Maths` value of
    opaque functions that the application is given, so every property below holds whatever
    those functions are. */
module Camera {
  import opened Common

  /** A glm::quat (w, x, y, z). */
  datatype Quat = Quat(w: real, x: real, y: real, z: real)

  const IdentityQuat := Quat(1.0, 0.0, 0.0, 0.0)

  /** The Hamilton product glm uses for quaternion `*`. */
  function QuatMul(p: Quat, q: Quat): Quat
  {
    Quat(p.w * q.w - p.x * q.x - p.y * q.y - p.z * q.z,
         p.w * q.x + p.x * q.w + p.y * q.z - p.z * q.y,
         p.w * q.y + p.y * q.w + p.z * q.x - p.x * q.z,
         p.w * q.z + p.z * q.w + p.x * q.y - p.y * q.x)
  }

  /** The identity quaternion is neutral for the product on both sides. */
  lemma QuatMulIdentity(q: Quat)
    ensures QuatMul(q, IdentityQuat) == q
    ensures QuatMul(IdentityQuat, q) == q
  {
  }

  /** The camera's right and up directions in world space. */
  datatype Axes = Axes(right: Vec3, up: Vec3)

  datatype Maths = Maths(
    /** mapToSphere(x, y) for a window of the given width and height */
    mapToSphere: (real, real, int, int) -> Vec3,
    /** angleAxis(-acos(clamp(dot(a, b), -1, 1)), normalize(cross(a, b))) */
    deltaRotation: (Vec3, Vec3) -> Quat,
    /** glm::normalize on quaternions */
    normalize: Quat -> Quat,
    /** mat3_cast(q) applied to (1,0,0) and (0,1,0) */
    cameraAxes: Quat -> Axes,
    /** getViewMatrix() from rotation, distance and pan offset */
    viewMatrix: (Quat, real, Vec3) -> Mat4,
    /** glm::perspective(radians(10), width / height, 0.1, 1000) */
    perspective: (int, int) -> Mat4)
  {
    function MapToSphere(x: real, y: real, width: int, height: int): Vec3 { mapToSphere(x, y, width, height) }
    function DeltaRotation(start: Vec3, current: Vec3): Quat { deltaRotation(start, current) }
    function Normalize(q: Quat): Quat { normalize(q) }
    function CameraAxes(q: Quat): Axes { cameraAxes(q) }
    function ViewMatrix(q: Quat, distance: real, target: Vec3): Mat4 { viewMatrix(q, distance, target) }
    function Perspective(width: int, height: int): Mat4 { perspective(width, height) }
  }

  /** The drag threshold: `length(axis) > 0.0001`. Over the reals this is the same as the
      squared length exceeding 0.0001 squared, which avoids the square root. */
  const AxisThreshold: real := 0.0001

  predicate AxisNonDegenerate(axis: Vec3)
  {
    Dot(axis, axis) > AxisThreshold * AxisThreshold
  }

  /** A cursor that has not moved since the press gives a zero rotation axis. */
  lemma NoMotionNoAxis(p: Vec3)
    ensures Cross(p, p) == Zero3
    ensures !AxisNonDegenerate(Cross(p, p))
  {
  }

  /** The rotation after the cursor moves to `current` during a drag that started at
      `startPoint` with rotation `startRotation`: the axis is the cross product of the two
      sphere points; below the threshold the rotation is left as it was, otherwise the new
      rotation is the start rotation times the delta rotation, or, while ImGui wants the
      mouse, the start rotation alone, normalised either way. */
  function ArcballRotation(maths: Maths, rotation: Quat, startRotation: Quat, startPoint: Vec3,
                           current: Vec3, guiWantsMouse: bool): Quat
  {
    if !AxisNonDegenerate(Cross(startPoint, current)) then rotation
    else if !guiWantsMouse then maths.Normalize(QuatMul(startRotation, maths.DeltaRotation(startPoint, current)))
    else maths.Normalize(startRotation)
  }

  /** A drag always rotates relative to the state saved at the press, never to the rotation
      reached by earlier moves: once the axis is long enough the previous rotation has no
      influence, and a cursor back on the press point leaves the rotation alone. */
  lemma ArcballIsRelativeToPress(maths: Maths, r1: Quat, r2: Quat, startRotation: Quat,
                                 startPoint: Vec3, current: Vec3, guiWantsMouse: bool)
    ensures AxisNonDegenerate(Cross(startPoint, current)) ==>
              ArcballRotation(maths, r1, startRotation, startPoint, current, guiWantsMouse)
              == ArcballRotation(maths, r2, startRotation, startPoint, current, guiWantsMouse)
    ensures ArcballRotation(maths, r1, startRotation, startPoint, startPoint, guiWantsMouse) == r1
  {
    NoMotionNoAxis(startPoint);
  }

  /** A delta rotation that is the identity turns nothing: the drag then yields the
      normalised start rotation, the same rotation as while ImGui wants the mouse. */
  lemma IdentityDeltaKeepsStart(maths: Maths, rotation: Quat, startRotation: Quat,
                                startPoint: Vec3, current: Vec3)
    requires maths.DeltaRotation(startPoint, current) == IdentityQuat
    ensures ArcballRotation(maths, rotation, startRotation, startPoint, current, false)
            == ArcballRotation(maths, rotation, startRotation, startPoint, current, true)
    ensures AxisNonDegenerate(Cross(startPoint, current)) ==>
              ArcballRotation(maths, rotation, startRotation, startPoint, current, false)
              == maths.Normalize(startRotation)
  {
    QuatMulIdentity(startRotation);
  }

  /** Pan sensitivity scales with the camera distance. */
  const PanFactor: real := 0.002

  /** `panOffset_ -= right * dx; panOffset_ -= up * dy;` */
  function Pan(offset: Vec3, axes: Axes, dx: real, dy: real): Vec3
  {
    Sub(Sub(offset, Scale(axes.right, dx)), Scale(axes.up, dy))
  }

  /** Panning moves the offset against the drag along the camera axes, and a zero cursor
      delta leaves the offset where it was. */
  lemma PanMovesAgainstDrag(offset: Vec3, axes: Axes, dx: real, dy: real)
    ensures Add(Pan(offset, axes, dx, dy), Add(Scale(axes.right, dx), Scale(axes.up, dy))) == offset
    ensures Pan(offset, axes, 0.0, 0.0) == offset
  {
  }

  /** One panning move of the cursor from (fromX, fromY) to (toX, toY) at the given camera
      distance: the window's y axis points down, so the vertical delta is fromY - toY. */
  function PanMove(offset: Vec3, axes: Axes, distance: real,
                   fromX: real, fromY: real, toX: real, toY: real): Vec3
  {
    var sensitivity := distance * PanFactor;
    Pan(offset, axes, (toX - fromX) * sensitivity, (fromY - toY) * sensitivity)
  }

  /** A move that returns the cursor to where panning last saw it leaves the offset alone,
      and a move to the right or down shifts the offset against the camera's right or up
      axis by the distance-scaled delta. */
  lemma PanMoveScalesWithDistance(offset: Vec3, axes: Axes, distance: real, x: real, y: real, dx: real, dy: real)
    ensures PanMove(offset, axes, distance, x, y, x, y) == offset
    ensures Add(PanMove(offset, axes, distance, x, y, x + dx, y - dy),
                Add(Scale(axes.right, dx * distance * PanFactor), Scale(axes.up, dy * distance * PanFactor)))
            == offset
  {
    PanMovesAgainstDrag(offset, axes, 0.0, 0.0);
    PanMovesAgainstDrag(offset, axes, dx * distance * PanFactor, dy * distance * PanFactor);
    assert (x + dx - x) * (distance * PanFactor) == dx * distance * PanFactor;
    assert (y - (y - dy)) * (distance * PanFactor) == dy * distance * PanFactor;
  }

  const ZoomStep: real := 5.0
  const MinDistance: real := 1.0

  /** onScroll's new distance: `d - 5 * yoffset`, replaced by exactly 1 when that is at most 1. */
  function Zoom(distance: real, yoffset: real): (d: real)
    ensures d >= MinDistance
    ensures distance - ZoomStep * yoffset > MinDistance ==> d == distance - ZoomStep * yoffset
    ensures distance - ZoomStep * yoffset <= MinDistance ==> d == MinDistance
  {
    var d := distance - yoffset * ZoomStep;
    if d <= MinDistance then MinDistance else d
  }

  /** Scrolling forward never moves the camera away, scrolling back never moves it closer,
      and a zero scroll leaves any distance of at least 1 unchanged. */
  lemma ZoomDirection(distance: real, yoffset: real)
    requires distance >= MinDistance
    ensures yoffset >= 0.0 ==> Zoom(distance, yoffset) <= distance
    ensures yoffset <= 0.0 ==> Zoom(distance, yoffset) >= distance
    ensures yoffset == 0.0 ==> Zoom(distance, yoffset) == distance
  {
  }
}
