/**
 * The objects GameWorld drives but whose code is not part of this model:
 * the marble, the level, the scoring handler, the analytics tracker and the
 * jPCT objects that take collision listeners. Each is reduced to the state
 * GameWorld reads or changes; what their own code would compute (physics,
 * the end of the death animation) is left open, and ghost logs record the
 * requests GameWorld made so that its contracts can speak about them.
 * The marble's force and position are an assumption of this model: only
 * `SetForce` changes the force, and `SetForce` leaves the position alone.
 */
module Collaborators {
  import opened Camera

  /** The rolling ball (Marble): its position and the requests it received. */
  class Marble {
    var position: Vec
    var forceAngle: real
    var forceMagnitude: real
    /** Time steps given to the physics integration, oldest first. */
    ghost var physicsSteps: seq<real>
    /** Time steps given to the death animation, oldest first. */
    ghost var deathSteps: seq<real>
    /** What each death-animation step answered to "finished?", oldest first. */
    ghost var deathReports: seq<bool>

    constructor (start: Vec)
      ensures position == start && forceAngle == 0.0 && forceMagnitude == 0.0
      ensures physicsSteps == [] && deathSteps == [] && deathReports == []
    {
      position, forceAngle, forceMagnitude := start, 0.0, 0.0;
      physicsSteps, deathSteps, deathReports := [], [], [];
    }

    /** Sets the pushing force from a world angle and a magnitude. */
    method SetForce(angle: real, magnitude: real)
      modifies this
      ensures forceAngle == angle && forceMagnitude == magnitude
      ensures position == old(position)
      ensures physicsSteps == old(physicsSteps) && deathSteps == old(deathSteps)
      ensures deathReports == old(deathReports)
    {
      forceAngle, forceMagnitude := angle, magnitude;
    }

    /** One physics step; where the ball ends up is the physics engine's business. */
    method TimeStep(dt: real)
      modifies this
      ensures physicsSteps == old(physicsSteps) + [dt]
      ensures deathSteps == old(deathSteps) && deathReports == old(deathReports)
      ensures forceAngle == old(forceAngle) && forceMagnitude == old(forceMagnitude)
    {
      position := *;
      physicsSteps := physicsSteps + [dt];
    }

    /** One step of the death animation; says whether the animation is over. */
    method DeathSequence(dt: real) returns (finished: bool)
      modifies this
      ensures deathSteps == old(deathSteps) + [dt]
      ensures deathReports == old(deathReports) + [finished]
      ensures physicsSteps == old(physicsSteps)
      ensures forceAngle == old(forceAngle) && forceMagnitude == old(forceMagnitude)
    {
      finished := *;
      position := *;
      deathSteps := deathSteps + [dt];
      deathReports := deathReports + [finished];
    }

    /** Puts the ball back at a position (Marble.resetState). */
    method ResetState(start: Vec)
      modifies this
      ensures position == start
      ensures physicsSteps == old(physicsSteps) && deathSteps == old(deathSteps)
      ensures deathReports == old(deathReports)
      ensures forceAngle == old(forceAngle) && forceMagnitude == old(forceMagnitude)
    {
      position := start;
    }
  }

  /** A level (ILevel): its boundary test and the pose a life starts from. */
  class Level {
    const isOutsideBoundaries: Vec -> bool
    const startingBallPosition: Vec
    const startingCameraAngle: real

    constructor (outside: Vec -> bool, ballStart: Vec, cameraStart: real)
      ensures isOutsideBoundaries == outside
      ensures startingBallPosition == ballStart && startingCameraAngle == cameraStart
    {
      isOutsideBoundaries, startingBallPosition, startingCameraAngle := outside, ballStart, cameraStart;
    }
  }

  /** The score keeper (ScoringHandler), reduced to the time it has been given. */
  class ScoringHandler {
    ghost var steps: seq<real>

    constructor ()
      ensures steps == []
    {
      steps := [];
    }

    method TimeStep(dt: real)
      modifies this
      ensures steps == old(steps) + [dt]
    {
      steps := steps + [dt];
    }
  }

  /** An analytics event: category, action, label and value. */
  datatype AnalyticsEvent = AnalyticsEvent(category: string, action: string, eventLabel: string, value: int)

  /** The analytics tracker, reduced to the events sent through it. */
  class Tracker {
    var events: seq<AnalyticsEvent>

    constructor ()
      ensures events == []
    {
      events := [];
    }

    method SendEvent(category: string, action: string, eventLabel: string, value: int)
      modifies this
      ensures events == old(events) + [AnalyticsEvent(category, action, eventLabel, value)]
    {
      events := events + [AnalyticsEvent(category, action, eventLabel, value)];
    }
  }

  /** The collision listener shared by all static geometry (CollisionHandler). */
  class CollisionListener {
    const marble: Marble

    constructor (m: Marble)
      ensures marble == m
    {
      marble := m;
    }
  }

  /**
   * A piece of static level geometry (a jPCT Object3D), reduced to the
   * listeners attached to it, in attachment order and with repetitions.
   */
  class StaticObject {
    var listeners: seq<CollisionListener>

    constructor ()
      ensures listeners == []
    {
      listeners := [];
    }

    method AddCollisionListener(listener: CollisionListener)
      modifies this
      ensures listeners == old(listeners) + [listener]
    {
      listeners := listeners + [listener];
    }
  }
}
