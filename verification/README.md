# HighBall GameWorld: per-frame control logic

A Dafny model of the frame loop of HighBall, a marble-rolling game built on
jPCT for Android. The model covers the five pieces of `GameWorld` that decide
what happens every frame:

- **Two-finger camera gestures** (`moveCamera`). A gesture records its time
  and always turns the camera's yaw. It changes the normalised zoom distance
  only when the new value stays strictly inside (0,1). Otherwise the zoom part
  of the gesture is dropped whole, not clamped.
- **Slow motion** (`calcTimeScaleFactor`). Physics runs at a quarter of the
  speed for less than 100 ms after a two-finger gesture. At exactly 100 ms it
  is back to full speed.
- **Static-collision registry** (`addStatic` and the listener loop of
  `initializeWorld`). Every registered piece of static geometry carries the
  shared collision listener once that listener exists. This holds whether the
  piece was registered before the listener was created or after.
- **Frame update** (`updateGame`). Outside the level's boundaries the death
  animation advances. When it reports finished, the marble and the camera yaw
  go back to the level's start and one analytics event is sent. Inside the
  level, physics advances by the scaled time step and scoring by the unscaled
  one. Either way the camera is re-aimed.
- **Camera scalars** (`pointCameraSmart` without its trigonometry) and the
  drag-to-force angle (`applyForce`). The normalised distance maps affinely onto
  [2,15] world units. The pitch fraction `0.5 - y/50` is capped above at 0.8
  and has no lower bound.

Files:

- `TimeScale.dfy` (module `TimeScale`): the slow-motion step function.
- `Camera.dfy` (module `Camera`): zoom updates, the pose scalars and the force
  angle, over `real`.
- `Collaborators.dfy` (module `Collaborators`): the marble, the level, the
  scoring handler, the analytics tracker, the static objects and the collision
  listener. These are plain classes whose code is not part of this model.
  Where the marble moves and whether the death animation has finished are
  left open (nondeterministic `:= *` assignments). The force and the position
  are not: the model assumes which requests keep them (see "## Left out").
  Ghost logs record what `GameWorld` asked of them.
- `GameWorld.dfy` (module `HiBall`): class `GameWorld` with its fields and
  methods. `Valid()` says the zoom distance is inside (0,1) and every static
  object carries the current listener. Every method keeps `Valid()`.

Modelling conventions:

- Java `float` becomes `real` and `long` becomes `int`.
- Every reading of `SystemClock.uptimeMillis()` becomes a `now` parameter in
  milliseconds. Uptime readings are never negative, so `now - last2FingerTimestamp`
  cannot overflow a `long`, and an unbounded `int` gives the same result.
- The model does not assume the clock is monotonic: the `now` of `MoveCamera`
  and the `now` of `UpdateGame` are unrelated parameters. An `UpdateGame`
  whose `now` is earlier than the last gesture's, which a monotonic
  `uptimeMillis` never produces, gets the slow-motion factor 0.25.
- The source uses two different approximations of pi: 3.141592 in `applyForce`
  and 3.14159 in `pointCameraSmart`. The model keeps both (`FORCE_PI`,
  `PITCH_PI`).
- jPCT's y axis points down (gravity is `(0, 6, 0)`). So a larger `y` means a
  lower marble, which gives a flatter camera.
- `GameWorld` keeps no explicit dying state. The death sequence runs on every
  frame that starts with the marble outside the level's boundaries
  (`GameWorld.OutsideBoundaries()`).
- Listener attachments are not deduplicated. Each registration attaches the
  listener once; registering an object again after the listener exists
  attaches it again. `StaticObject.listeners` is therefore a sequence with
  repetitions, and `HiBall.ReRegistrationExample` shows the double attachment.
- `Camera.DistanceAfter` is a proof helper: it folds `NextDistance` over a
  sequence of gestures so that `Camera.DistanceStaysInside` can state the
  invariant for every such sequence.
- `HiBall.GestureExample` replays two gestures on a new world. The zoom
  0.4 + 0.3 is accepted and a further +0.5 is dropped while the yaw still
  turns (GameWorld.java:86-96). For a gesture at 1050 ms, a frame at 1149 ms
  still runs at a quarter of the speed and one at 1150 ms at full speed
  (GameWorld.java:125-134).

## Model

| member | source | states |
|---|---|---|
| `TimeScale.Factor` | src/meshlabs/hiball/GameWorld.java:125-134 | The factor is 0.25 exactly when less than 100 ms have passed since the last gesture, and 1 exactly when 100 ms or more have passed. |
| `TimeScale.WindowEndIsFullSpeed` | src/meshlabs/hiball/GameWorld.java:129-131 | At exactly 100 ms the factor is already 1. At 99 ms it is still 0.25. |
| `TimeScale.FactorMonotone` | src/meshlabs/hiball/GameWorld.java:125-134 | The longer ago the last gesture, the larger or equal the factor. |
| `TimeScale.ScaledStepBounds` | src/meshlabs/hiball/GameWorld.java:149-150 | For a non-negative step, the scaled physics step lies between a quarter of the step and the whole step. |
| `Camera.NextDistance` | src/meshlabs/hiball/GameWorld.java:90-95 | A zoom is all or nothing: the result is the old distance or the full sum. Every sum strictly inside (0,1) is accepted. A distance inside (0,1) stays inside. |
| `Camera.DistanceStaysInside` | src/meshlabs/hiball/GameWorld.java:90-95 | Starting strictly inside (0,1), such as from the initial 0.4, the distance stays strictly inside (0,1) after any sequence of zoom gestures. |
| `Camera.RejectedGestureIsDropped` | src/meshlabs/hiball/GameWorld.java:93-95 | A zoom whose sum is not strictly inside (0,1) leaves the distance exactly unchanged, with no clamping. |
| `Camera.AdjustedDistance` | src/meshlabs/hiball/GameWorld.java:98-103 | A distance in [0,1] maps into [2,15] world units. A distance in (0,1) maps into (2,15). |
| `Camera.AdjustedDistanceRoundTrip` | src/meshlabs/hiball/GameWorld.java:103 | The mapping 2 + d·13 and its inverse (r − 2)/13 undo each other, in both directions. |
| `Camera.AdjustedDistanceIncreasing` | src/meshlabs/hiball/GameWorld.java:103 | A larger normalised distance gives a strictly larger world distance. |
| `Camera.HeightFraction` | src/meshlabs/hiball/GameWorld.java:105-108 | The pitch fraction is the minimum of 0.5 − y/50 and 0.8: never above 0.8, never above the raw value, and equal to one of the two. |
| `Camera.HeightFractionNoLowerBound` | src/meshlabs/hiball/GameWorld.java:105-108 | The clamp is one-sided: for every bound, some y gives a fraction below it. |
| `Camera.HeightFractionAntitone` | src/meshlabs/hiball/GameWorld.java:105-108 | A larger y never gives a larger pitch fraction. |
| `Camera.PitchAngle` | src/meshlabs/hiball/GameWorld.java:100-109 | The pitch angle is the fraction times 3.14159/2, and so never exceeds 0.8 · 3.14159/2. |
| `Camera.Pose` | src/meshlabs/hiball/GameWorld.java:102-118 | The camera looks at the subject's exact position. For a distance in (0,1) its range is strictly between 2 and 15, its pitch is at most the maximum, and its range maps back to the normalised distance. |
| `Camera.PoseAtGroundLevel` | src/meshlabs/hiball/GameWorld.java:103-109 | At ground level (y = 0) and fully zoomed in (distance 0), the range is 2 and the pitch is 0.5 · 3.14159/2. |
| `Camera.WorldForceAngle` | src/meshlabs/hiball/GameWorld.java:81-83 | The world force angle is offset from the camera yaw by a quarter turn (3.141592/2) minus the drag's screen angle. |
| `Camera.ForceTurnsWithCamera` | src/meshlabs/hiball/GameWorld.java:81-83 | Turning the camera yaw by some angle turns the force of every drag by the same angle. |
| `Camera.ForceTurnsAgainstDrag` | src/meshlabs/hiball/GameWorld.java:81-83 | Turning a drag on screen by some angle turns the force by the same angle the other way. |
| `Camera.UpwardDragFollowsCamera` | src/meshlabs/hiball/GameWorld.java:81-83 | A drag at screen angle 3.141592/2 pushes the marble along the camera's yaw. |
| `HiBall.GameWorld.constructor` | src/meshlabs/hiball/GameWorld.java:55-75 | A new world has distance 0.4, yaw 0 and gesture time 0. It has no static objects, no listener, no level and no marble, and fresh scoring and tracker objects with empty histories. |
| `HiBall.GameWorld.ApplyForce` | src/meshlabs/hiball/GameWorld.java:81-83 | The marble's force gets angle yaw + 3.141592/2 − screen angle and the drag's magnitude. Its physics and death logs do not change, and (under the `Marble` assumption in "## Left out") neither does its position. |
| `HiBall.GameWorld.MoveCamera` | src/meshlabs/hiball/GameWorld.java:86-96 | The gesture time becomes `now` and the yaw grows by `dYaw`, whatever the zoom does. The distance follows `NextDistance`. `Valid()` is kept, so the distance stays in (0,1). |
| `HiBall.GameWorld.PointCameraSmart` | src/meshlabs/hiball/GameWorld.java:102-109 | The camera pose becomes `Pose(cameraDistance, marble position)`: aimed at the marble, with the mapped range and the clamped pitch. |
| `HiBall.GameWorld.UpdateGame` | src/meshlabs/hiball/GameWorld.java:138-155 | Outside the boundaries, physics and scoring are not stepped and the death animation gets one step. If it reports finished, the marble goes to the level's start, the yaw to the level's starting angle, and exactly one death event is sent. If not, the yaw and the events are unchanged. Inside, the marble gets `timeStep · Factor(now − last gesture)`, scoring gets the unscaled `timeStep`, and the yaw and events are unchanged. In both branches the camera is re-aimed at the marble's new position, and (under the `Marble` assumption in "## Left out") the marble's force is kept. |
| `HiBall.GameWorld.InitializeWorld` | src/meshlabs/hiball/GameWorld.java:194-203 | The level and marble are installed and the marble is reset to the level's start; its physics and death logs do not change, and (under the `Marble` assumption in "## Left out") neither does its force. A fresh listener for that marble is appended to the listeners of every static object already registered. The yaw becomes the level's starting angle. `Valid()` holds afterwards. |
| `HiBall.GameWorld.AddStatic` | src/meshlabs/hiball/GameWorld.java:274-280 | The object joins the set. The current listener is appended to its listeners exactly when a listener exists, even if the object was already registered. `Valid()` is kept, so registration order never leaves an object unwired. |
| `HiBall.RegistrationOrderExample` | src/meshlabs/hiball/GameWorld.java:198-201 | Two distinct objects with no listeners, one registered before `InitializeWorld` and one after, each end up with exactly the shared listener attached once. |
| `HiBall.ReRegistrationExample` | src/meshlabs/hiball/GameWorld.java:274-280 | Registering an object twice after the listener exists leaves it in the set once but with the listener attached twice. |

## Left out

- Floating point: the model computes over exact reals. It does not capture `float` rounding of `0.4f`, `3.14159f` and the sums and products, nor NaN or infinity.
- The trigonometric camera offset and the jPCT calls `camera.setPosition` and `camera.lookAt` (GameWorld.java:110-118) are not modelled. `CameraPose` keeps the look-at point, the range and the pitch angle, from which that offset is computed.
- `pointCameraSmart` reads `state.marblePosition` from `GameState`. The model reads the marble's position directly, so it assumes `state.marblePosition` holds the marble's current position; `GameState` is not part of this model. The same field `Marble.position` also stands for `marble.getTransformedCenter()`, the input of the boundary test at GameWorld.java:139.
- The marble, the level (`Level1`), `ScoringHandler` and `CollisionHandler` are not part of this model. Physics may move the marble anywhere, and the death animation may report either result. Apart from the force and the position, the model records only what `GameWorld` asked of them.
- `Collaborators.Marble`: the model assumes that `timeStep`, `deathSequence` and `resetState` keep the force set by `setForce`, and that `setForce` keeps the position. `Marble`'s code is not part of this model. The force clauses of `HiBall.GameWorld.UpdateGame` and `HiBall.GameWorld.InitializeWorld`, and the position clause of `HiBall.GameWorld.ApplyForce`, rest on this assumption. In particular, `resetState` on a respawn (GameWorld.java:145, 197) might clear the force in the real code.
- The analytics tracker is reduced to the list of events sent. Obtaining it through `GoogleAnalytics.getInstance` and delivering the event are not modelled.
- `initializeWorld` also sets the jPCT configuration, ambient light and sun, reloads textures, fetches the camera, warms up scoring and compacts memory (GameWorld.java:184-192, 204-210). None of this is modelled. The level and the marble it constructs are passed in instead of being created with `new Level1(this)` and `new Marble(this, 0.5f)`.
- The Java constructor calls `initializeWorld` itself. `GameWorld` permits objects to be registered through `addStatic` before the listener exists, for example by `new Level1(this)` at GameWorld.java:194. The model keeps the constructor and `InitializeWorld` separate, so `AddStatic` may run before or after `InitializeWorld`.
- `addStatic` also adds the object to the jPCT world for rendering (GameWorld.java:276). The model leaves this out, and likewise `addObject` and `addPolyline`: they only feed the renderer.
- Rendering and lifecycle are not modelled: `renderAndDraw`, `resyncRenderer`, `onResume`, `onDestroy`, `setJPCTConfig` and `printStatus`. They are graphics and logging plumbing.
- Asset loading is not modelled: `reloadTextures`, `reloadTexture`, `reloadTextureResource` and `load3DS`. This is Android resource I/O through jPCT's texture manager and loader.
- `BlobShadow` (both copies) is not modelled. It only positions a jPCT object on a surface.
- Concurrency: the Java fields are not synchronised, and `moveCamera` (input events) and `updateGame` (frame loop) may be called from different threads. The model assumes calls never interleave: each method runs to completion before the next begins.
