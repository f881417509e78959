/**
 * The per-frame control logic of HighBall's GameWorld: camera gestures, the
 * registry of static geometry sharing one collision listener, and the frame
 * update that either plays the death sequence or steps physics and scoring,
 * and then re-aims the camera. Clock readings are `now` parameters in ms.
 */
module HiBall {
  import TimeScale
  import opened Camera
  import opened Collaborators

  /** The one analytics event the game loop sends, when a death sequence ends. */
  const DEATH_EVENT: AnalyticsEvent := AnalyticsEvent("Gameplay", "Level1", "Death", 1)

  class GameWorld {
    var scoringHandler: ScoringHandler
    var tracker: Tracker
    var marble: Marble?
    var level: Level?
    var staticObjects: set<StaticObject>
    var staticCollisionListener: CollisionListener?

    /** Normalised zoom, kept strictly inside (0,1). */
    var cameraDistance: real
    /** Yaw around the y axis in radians; unbounded. */
    var cameraAngle: real
    /** Clock reading (ms) of the last two-finger gesture. */
    var last2FingerTimestamp: int
    /** Where the camera was last aimed (its trigonometric placement is not modelled). */
    var pose: CameraPose

    /** Every static object carries the shared listener, once one exists. */
    ghost predicate AllStaticWired()
      reads this, staticObjects
    {
      staticCollisionListener != null ==>
        forall o :: o in staticObjects ==> staticCollisionListener in o.listeners
    }

    ghost predicate Valid()
      reads this, staticObjects
    {
      && 0.0 < cameraDistance < 1.0
      && AllStaticWired()
    }

    /** The marble has left the level: the frame plays the death sequence. */
    ghost predicate OutsideBoundaries()
      reads this, marble
      requires marble != null && level != null
    {
      level.isOutsideBoundaries(marble.position)
    }

    /** The field initialisers and collaborators made before the world is populated. */
    constructor ()
      ensures Valid()
      ensures cameraDistance == 0.4 && cameraAngle == 0.0 && last2FingerTimestamp == 0
      ensures staticObjects == {} && staticCollisionListener == null
      ensures marble == null && level == null
      ensures fresh(scoringHandler) && scoringHandler.steps == []
      ensures fresh(tracker) && tracker.events == []
    {
      scoringHandler := new ScoringHandler();
      tracker := new Tracker();
      marble, level := null, null;
      staticObjects, staticCollisionListener := {}, null;
      cameraDistance, cameraAngle, last2FingerTimestamp := 0.4, 0.0, 0;
      pose := Pose(0.4, ORIGIN);
    }

    /** A drag on the screen becomes a force on the marble, relative to the camera's yaw. */
    method ApplyForce(screenPathAngle: real, screenPathMagnitude: real)
      requires marble != null
      modifies marble
      ensures marble.forceAngle == WorldForceAngle(cameraAngle, screenPathAngle)
      ensures marble.forceMagnitude == screenPathMagnitude
      ensures marble.position == old(marble.position)
      ensures marble.physicsSteps == old(marble.physicsSteps) && marble.deathSteps == old(marble.deathSteps)
      ensures marble.deathReports == old(marble.deathReports)
    {
      marble.SetForce(WorldForceAngle(cameraAngle, screenPathAngle), screenPathMagnitude);
    }

    /**
     * A two-finger gesture at time `now`: always records the time and turns the
     * camera; zooms only when the new distance stays strictly inside (0,1).
     */
    method MoveCamera(dYaw: real, dDistance: real, now: int)
      requires Valid()
      modifies this`last2FingerTimestamp, this`cameraAngle, this`cameraDistance
      ensures Valid()
      ensures last2FingerTimestamp == now
      ensures cameraAngle == old(cameraAngle) + dYaw
      ensures cameraDistance == NextDistance(old(cameraDistance), dDistance)
    {
      last2FingerTimestamp := now;
      cameraAngle := cameraAngle + dYaw;
      var sumCamDist := cameraDistance + dDistance;
      if 0.0 < sumCamDist && sumCamDist < 1.0 {
        cameraDistance := sumCamDist;
      }
    }

    /** Aims the camera at the marble from the current zoom and the marble's height. */
    method PointCameraSmart()
      requires marble != null
      modifies this`pose
      ensures pose == Pose(cameraDistance, marble.position)
    {
      var adjustedCameraDistance := CAMERA_MIN_DISTANCE + cameraDistance * (CAMERA_MAX_DISTANCE - CAMERA_MIN_DISTANCE);
      var heightAngle := 0.5 - marble.position.y / 50.0;
      if heightAngle > CAMERA_MAX_ANGLE {
        heightAngle := CAMERA_MAX_ANGLE;
      }
      heightAngle := heightAngle * PITCH_PI / 2.0;
      pose := CameraPose(marble.position, adjustedCameraDistance, heightAngle);
    }

    /**
     * One frame of `timeStep` at clock reading `now`. Outside the level the
     * death sequence advances and, once it reports finished, the marble and the
     * camera's yaw go back to the level's start and one death event is sent.
     * Inside, physics advances by the scaled step and scoring by the real one.
     * Either way the camera is re-aimed at the marble.
     */
    method UpdateGame(timeStep: real, now: int)
      requires Valid() && marble != null && level != null
      modifies this`cameraAngle, this`pose, marble, scoringHandler, tracker
      ensures Valid()
      ensures pose == Pose(cameraDistance, marble.position)
      ensures marble.forceAngle == old(marble.forceAngle) && marble.forceMagnitude == old(marble.forceMagnitude)
      // outside the level: only the death sequence runs
      ensures old(OutsideBoundaries()) ==>
        && marble.physicsSteps == old(marble.physicsSteps)
        && scoringHandler.steps == old(scoringHandler.steps)
        && marble.deathSteps == old(marble.deathSteps) + [timeStep]
        && (marble.deathReports == old(marble.deathReports) + [true] ||
            marble.deathReports == old(marble.deathReports) + [false])
      // ... and when it reports finished, one respawn and one event
      ensures marble.deathReports == old(marble.deathReports) + [true] ==>
        && marble.position == level.startingBallPosition
        && cameraAngle == level.startingCameraAngle
        && tracker.events == old(tracker.events) + [DEATH_EVENT]
      // ... and when it does not, neither
      ensures marble.deathReports == old(marble.deathReports) + [false] ==>
        && cameraAngle == old(cameraAngle)
        && tracker.events == old(tracker.events)
      // inside the level: scaled physics, unscaled scoring, no death step
      ensures !old(OutsideBoundaries()) ==>
        && marble.physicsSteps == old(marble.physicsSteps) + [timeStep * TimeScale.Factor(now - last2FingerTimestamp)]
        && scoringHandler.steps == old(scoringHandler.steps) + [timeStep]
        && marble.deathSteps == old(marble.deathSteps)
        && marble.deathReports == old(marble.deathReports)
        && cameraAngle == old(cameraAngle)
        && tracker.events == old(tracker.events)
    {
      if level.isOutsideBoundaries(marble.position) {
        var finished := marble.DeathSequence(timeStep);
        assert marble.deathReports[|old(marble.deathReports)|] == finished;
        if finished {
          tracker.SendEvent("Gameplay", "Level1", "Death", 1);
          marble.ResetState(level.startingBallPosition);
          cameraAngle := level.startingCameraAngle;
        }
      } else {
        var timeScaleFactor := TimeScale.Factor(now - last2FingerTimestamp);
        marble.TimeStep(timeStep * timeScaleFactor);
        scoringHandler.TimeStep(timeStep);
      }
      PointCameraSmart();
    }

    /**
     * The part of world initialisation this model keeps: the level and marble
     * are installed, the marble is put at the level's start, the shared
     * collision listener is created and attached to every static object
     * registered so far, and the camera's yaw is set to the level's start.
     */
    method InitializeWorld(newLevel: Level, newMarble: Marble)
      requires Valid()
      modifies this`level, this`marble, this`staticCollisionListener, this`cameraAngle
      modifies newMarble, staticObjects
      ensures Valid()
      ensures level == newLevel && marble == newMarble
      ensures marble.position == level.startingBallPosition
      ensures newMarble.physicsSteps == old(newMarble.physicsSteps) && newMarble.deathSteps == old(newMarble.deathSteps)
      ensures newMarble.deathReports == old(newMarble.deathReports)
      ensures newMarble.forceAngle == old(newMarble.forceAngle) && newMarble.forceMagnitude == old(newMarble.forceMagnitude)
      ensures cameraAngle == level.startingCameraAngle
      ensures staticCollisionListener != null && fresh(staticCollisionListener)
      ensures staticCollisionListener.marble == newMarble
      ensures forall o :: o in staticObjects ==> o.listeners == old(o.listeners) + [staticCollisionListener]
    {
      level := newLevel;
      marble := newMarble;
      marble.ResetState(level.startingBallPosition);
      var listener := new CollisionListener(marble);
      staticCollisionListener := listener;
      var pending := staticObjects;
      while pending != {}
        modifies staticObjects
        invariant pending <= staticObjects
        invariant forall o :: o in staticObjects && o !in pending ==> o.listeners == old(o.listeners) + [listener]
        invariant forall o :: o in pending ==> o.listeners == old(o.listeners)
        decreases pending
      {
        var obj :| obj in pending;
        obj.AddCollisionListener(listener);
        pending := pending - {obj};
      }
      cameraAngle := level.startingCameraAngle;
    }

    /**
     * Registers a piece of static geometry. The listener is attached at once
     * when it already exists (again, if the object was registered before).
     */
    method AddStatic(obj: StaticObject)
      requires Valid()
      modifies this`staticObjects, obj
      ensures Valid()
      ensures staticObjects == old(staticObjects) + {obj}
      ensures obj.listeners ==
        if staticCollisionListener != null then old(obj.listeners) + [staticCollisionListener]
        else old(obj.listeners)
    {
      staticObjects := staticObjects + {obj};
      if staticCollisionListener != null {
        obj.AddCollisionListener(staticCollisionListener);
      }
    }
  }

  /**
   * Two distinct pieces of geometry, one registered before the world is
   * initialised and one after, each end up with the shared listener attached
   * exactly once.
   */
  method RegistrationOrderExample(level: Level, marble: Marble, early: StaticObject, late: StaticObject)
    returns (world: GameWorld)
    requires early != late && early.listeners == [] && late.listeners == []
    modifies marble, early, late
    ensures world.staticCollisionListener != null
    ensures early.listeners == [world.staticCollisionListener]
    ensures late.listeners == [world.staticCollisionListener]
  {
    world := new GameWorld();
    world.AddStatic(early);
    world.InitializeWorld(level, marble);
    world.AddStatic(late);
  }

  /**
   * Registering the same piece of geometry again once the listener exists
   * attaches the listener a second time: attachments are not deduplicated.
   */
  method ReRegistrationExample(level: Level, marble: Marble, obj: StaticObject)
    returns (world: GameWorld)
    requires obj.listeners == []
    modifies marble, obj
    ensures world.staticCollisionListener != null
    ensures world.staticObjects == {obj}
    ensures obj.listeners == [world.staticCollisionListener, world.staticCollisionListener]
  {
    world := new GameWorld();
    world.InitializeWorld(level, marble);
    world.AddStatic(obj);
    world.AddStatic(obj);
  }

  /** A zoom that stays inside (0,1) is applied, one that would leave it is dropped. */
  method GestureExample()
  {
    var world := new GameWorld();
    world.MoveCamera(0.0, 0.3, 1000);
    assert world.cameraDistance == 0.7;
    world.MoveCamera(0.1, 0.5, 1050);
    assert world.cameraDistance == 0.7 && world.cameraAngle == 0.1;
    assert TimeScale.Factor(1149 - world.last2FingerTimestamp) == 0.25;
    assert TimeScale.Factor(1150 - world.last2FingerTimestamp) == 1.0;
  }
}
