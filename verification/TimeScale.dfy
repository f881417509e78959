/**
 * Physics slow-motion while the camera is being moved with two fingers
 * (GameWorld.calcTimeScaleFactor). The clock reading is a parameter: the
 * caller passes the milliseconds elapsed since the last two-finger gesture.
 */
module TimeScale {

  /** Length of the slow-motion window after a two-finger gesture, in ms. */
  const SLOW_MOTION_WINDOW_MS: int := 100

  /** Factor applied to the physics time step inside that window. */
  const SLOW_MOTION_FACTOR: real := 0.25

  /**
   * The factor by which physics time is scaled, given the milliseconds since
   * the last two-finger gesture: a hard step, slow strictly inside the window
   * and full speed from the window's end on.
   */
  function Factor(sinceGesture: int): (f: real)
    ensures f == SLOW_MOTION_FACTOR <==> sinceGesture < SLOW_MOTION_WINDOW_MS
    ensures f == 1.0 <==> SLOW_MOTION_WINDOW_MS <= sinceGesture
  {
    if sinceGesture < SLOW_MOTION_WINDOW_MS then SLOW_MOTION_FACTOR else 1.0
  }

  /** Exactly at the end of the window time runs at full speed again. */
  lemma WindowEndIsFullSpeed()
    ensures Factor(SLOW_MOTION_WINDOW_MS) == 1.0
    ensures Factor(SLOW_MOTION_WINDOW_MS - 1) == SLOW_MOTION_FACTOR
  {
  }

  /** The further in the past the gesture, the faster (never slower) time runs. */
  lemma FactorMonotone(a: int, b: int)
    requires a <= b
    ensures Factor(a) <= Factor(b)
  {
  }

  /**
   * A scaled step never exceeds the real step and never drops below a quarter
   * of it: physics is slowed down, never stopped nor sped up.
   */
  lemma ScaledStepBounds(timeStep: real, sinceGesture: int)
    requires 0.0 <= timeStep
    ensures SLOW_MOTION_FACTOR * timeStep <= timeStep * Factor(sinceGesture) <= timeStep
  {
  }
}
