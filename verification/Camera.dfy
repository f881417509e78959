/**
 * The scalar side of the follow camera in GameWorld: the normalised zoom
 * distance and how a two-finger gesture changes it, the mapping of that
 * distance to world units, the one-sided clamp of the pitch, and the
 * translation of a screen drag into a world-space force angle.
 * The trigonometric camera offset is not part of this model.
 */
module Camera {

  /** A point of the jPCT world (SimpleVector). jPCT's y axis points down. */
  datatype Vec = Vec(x: real, y: real, z: real)

  const ORIGIN: Vec := Vec(0.0, 0.0, 0.0)

  /** World-unit range covered by the normalised camera distance. */
  const CAMERA_MIN_DISTANCE: real := 2.0
  const CAMERA_MAX_DISTANCE: real := 15.0

  /** Largest pitch, as a fraction of a fully vertical view. */
  const CAMERA_MAX_ANGLE: real := 0.8

  /** The two approximations of pi written in the source: one for the pitch, one for forces. */
  const PITCH_PI: real := 3.14159
  const FORCE_PI: real := 3.141592

  /** Largest pitch angle in radians the camera can take. */
  const MAX_PITCH_ANGLE: real := CAMERA_MAX_ANGLE * PITCH_PI / 2.0

  /**
   * The non-trigonometric part of where the camera is put: the point it looks
   * at, its distance from that point in world units and its pitch in radians.
   */
  datatype CameraPose = CameraPose(lookAt: Vec, range: real, pitch: real)

  // ---------------------------------------------------------------------
  // Normalised distance and two-finger zoom

  /** The normalised camera distance after a zoom gesture of `delta`. */
  function NextDistance(distance: real, delta: real): (r: real)
    // all or nothing: the delta is either applied whole or dropped, never clamped
    ensures r == distance || r == distance + delta
    // every sum strictly inside (0,1) is accepted
    ensures 0.0 < distance + delta < 1.0 ==> r == distance + delta
    // a distance strictly inside (0,1) stays there
    ensures 0.0 < distance < 1.0 ==> 0.0 < r < 1.0
  {
    var sum := distance + delta;
    if 0.0 < sum && sum < 1.0 then sum else distance
  }

  /** Proof helper: the normalised camera distance after a whole series of zoom gestures. */
  function DistanceAfter(distance: real, deltas: seq<real>): real
    decreases |deltas|
  {
    if deltas == [] then distance
    else DistanceAfter(NextDistance(distance, deltas[0]), deltas[1..])
  }

  /** Whatever gestures the user makes, the distance never leaves (0,1). */
  lemma {:induction false} DistanceStaysInside(distance: real, deltas: seq<real>)
    requires 0.0 < distance < 1.0
    ensures 0.0 < DistanceAfter(distance, deltas) < 1.0
    decreases |deltas|
  {
    if deltas != [] {
      DistanceStaysInside(NextDistance(distance, deltas[0]), deltas[1..]);
    }
  }

  /** A gesture that would leave (0,1) leaves the distance exactly as it was. */
  lemma RejectedGestureIsDropped(distance: real, delta: real)
    requires 0.0 < distance < 1.0
    requires distance + delta <= 0.0 || 1.0 <= distance + delta
    ensures NextDistance(distance, delta) == distance
  {
  }

  // ---------------------------------------------------------------------
  // Pose computation (pointCameraSmart without the trigonometry)

  /** Normalised distance mapped affinely onto [CAMERA_MIN_DISTANCE, CAMERA_MAX_DISTANCE]. */
  function AdjustedDistance(distance: real): (r: real)
    ensures 0.0 <= distance <= 1.0 ==> CAMERA_MIN_DISTANCE <= r <= CAMERA_MAX_DISTANCE
    ensures 0.0 < distance < 1.0 ==> CAMERA_MIN_DISTANCE < r < CAMERA_MAX_DISTANCE
  {
    CAMERA_MIN_DISTANCE + distance * (CAMERA_MAX_DISTANCE - CAMERA_MIN_DISTANCE)
  }

  /** The inverse mapping, from world units back to the normalised distance. */
  function NormalizedDistance(range: real): real
  {
    (range - CAMERA_MIN_DISTANCE) / (CAMERA_MAX_DISTANCE - CAMERA_MIN_DISTANCE)
  }

  /** The distance mapping is a bijection: each zoom level has its own range. */
  lemma AdjustedDistanceRoundTrip(distance: real, range: real)
    ensures NormalizedDistance(AdjustedDistance(distance)) == distance
    ensures AdjustedDistance(NormalizedDistance(range)) == range
  {
  }

  /** Zooming out (a larger normalised distance) moves the camera strictly further away. */
  lemma AdjustedDistanceIncreasing(d1: real, d2: real)
    requires d1 < d2
    ensures AdjustedDistance(d1) < AdjustedDistance(d2)
  {
  }

  /**
   * The pitch as a fraction of a vertical view for a subject at `y`:
   * 0.5 - y/50 capped above at CAMERA_MAX_ANGLE, with no lower bound.
   */
  function HeightFraction(y: real): (h: real)
    ensures h <= CAMERA_MAX_ANGLE
    ensures h <= 0.5 - y / 50.0
    ensures h == CAMERA_MAX_ANGLE || h == 0.5 - y / 50.0
  {
    var fraction := 0.5 - y / 50.0;
    if fraction > CAMERA_MAX_ANGLE then CAMERA_MAX_ANGLE else fraction
  }

  /** The clamp is one-sided: a large enough y pushes the fraction below any bound. */
  lemma HeightFractionNoLowerBound(bound: real)
    ensures exists y :: HeightFraction(y) < bound
  {
    var y := if bound < CAMERA_MAX_ANGLE then 50.0 * (1.5 - bound) else 0.0;
    assert HeightFraction(y) < bound;
  }

  /** The larger the y coordinate, the smaller (never larger) the pitch fraction. */
  lemma HeightFractionAntitone(y1: real, y2: real)
    requires y1 <= y2
    ensures HeightFraction(y2) <= HeightFraction(y1)
  {
  }

  /** The pitch in radians, using the source's approximation of pi. */
  function PitchAngle(y: real): (a: real)
    ensures a <= MAX_PITCH_ANGLE
    ensures 2.0 * a == HeightFraction(y) * PITCH_PI
  {
    HeightFraction(y) * PITCH_PI / 2.0
  }

  /** Where the camera is aimed for a normalised distance and a subject position. */
  function Pose(distance: real, subject: Vec): (p: CameraPose)
    ensures p.lookAt == subject
    ensures 0.0 < distance < 1.0 ==> CAMERA_MIN_DISTANCE < p.range < CAMERA_MAX_DISTANCE
    ensures p.pitch <= MAX_PITCH_ANGLE
    ensures NormalizedDistance(p.range) == distance
  {
    AdjustedDistanceRoundTrip(distance, 0.0);
    CameraPose(subject, AdjustedDistance(distance), PitchAngle(subject.y))
  }

  /** At ground level (y = 0) and fully zoomed in, the camera is 2 units away at half its vertical pitch. */
  lemma PoseAtGroundLevel(x: real, z: real)
    ensures Pose(0.0, Vec(x, 0.0, z)).range == CAMERA_MIN_DISTANCE
    ensures Pose(0.0, Vec(x, 0.0, z)).pitch == 0.5 * PITCH_PI / 2.0
  {
  }

  // ---------------------------------------------------------------------
  // Drag to force (applyForce)

  /** The world-space angle of the force for a drag at `screenAngle` on screen. */
  function WorldForceAngle(cameraAngle: real, screenAngle: real): (r: real)
    // the force is a quarter turn (by the source's pi) from the camera's yaw, less the drag's screen angle
    ensures r - cameraAngle == FORCE_PI / 2.0 - screenAngle
  {
    cameraAngle + FORCE_PI / 2.0 - screenAngle
  }

  /** Turning the camera by some yaw turns every drag's force by the same yaw. */
  lemma ForceTurnsWithCamera(cameraAngle: real, yaw: real, screenAngle: real)
    ensures WorldForceAngle(cameraAngle + yaw, screenAngle) == WorldForceAngle(cameraAngle, screenAngle) + yaw
  {
  }

  /** Turning a drag on screen by some angle turns its force the opposite way by the same angle. */
  lemma ForceTurnsAgainstDrag(cameraAngle: real, screenAngle: real, turn: real)
    ensures WorldForceAngle(cameraAngle, screenAngle + turn) == WorldForceAngle(cameraAngle, screenAngle) - turn
  {
  }

  /** A drag straight up the screen pushes the subject along the camera's yaw. */
  lemma UpwardDragFollowsCamera(cameraAngle: real)
    ensures WorldForceAngle(cameraAngle, FORCE_PI / 2.0) == cameraAngle
  {
  }
}
