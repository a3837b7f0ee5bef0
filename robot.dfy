/**
  The robot MechuEY as an object: its adaptive fields, the event handlers
  that update them, and the two wall-smoothing helpers, each proved against
  the value-level definitions of the other modules.

  The Robocode host is not modelled. What the handlers query from it
  (position, heading, own energy, the field size) and what its
  floating-point trigonometry yields (the turns to the enemy, the escape
  turns) arrive as parameters; the commands the handler issues
  (setTurnRadarRightRadians, setTurnGunRightRadians, setFire,
  setTurnRightRadians, setAhead) are returned as a Commands value.
*/
module Robot {
  import opened Geometry
  import opened WallAvoidance
  import opened Orbit
  import Adaptive

  /** The parts of a ScannedRobotEvent the model uses: e.getDistance() and e.getEnergy(). */
  datatype Scan = Scan(distance: real, energy: real)

  /** The angles the host computes with trigonometry for one scan:
      radarTurn is normalRelativeAngle(angleToEnemy - getRadarHeadingRadians()),
      gunTurn the normalised lead-angle gun turn, relativeBearing is
      normalRelativeAngle(atan2(eX - myX, eY - myY) - getHeadingRadians()),
      and escapes the turns to the four diagonals. */
  datatype Aim = Aim(radarTurn: real, gunTurn: real, relativeBearing: real, escapes: EscapeTurns)

  /** The commands one scan issues, in radians and pixels. */
  datatype Commands = Commands(radarTurn: real, gunTurn: real, firePower: real, bodyTurn: real, ahead: real)

  class MechuEY {
    /** Static in the source: 1 clockwise, -1 counter-clockwise. */
    var direction: int
    /** Static in the source: the target distance from the enemy. */
    var keepDistance: int
    /** The enemy's energy last seen. */
    var eEnergy: real
    /** battleFieldWidth and battleFieldHeight, read when the round starts. */
    var battleField: Field

    function State(): Adaptive.State
      reads this
    {
      Adaptive.State(direction, keepDistance, eEnergy)
    }

    ghost predicate Valid()
      reads this
    {
      Adaptive.Valid(State())
    }

    /** The first round: the static and instance initialisers, then run()'s
        reading of the field size. */
    constructor (field: Field)
      ensures Valid()
      ensures State() == Adaptive.Start() && battleField == field
    {
      direction := Adaptive.START_DIRECTION;
      keepDistance := Adaptive.START_KEEP_DISTANCE;
      eEnergy := Adaptive.START_ENEMY_ENERGY;
      battleField := field;
    }

    /** A later round: Robocode makes a fresh robot object, so the instance
        fields start over, while the static direction and keepDistance keep
        the values the previous rounds left. */
    method StartRound(field: Field)
      requires Valid()
      modifies this`eEnergy, this`battleField
      ensures Valid()
      ensures direction == old(direction) && keepDistance == old(keepDistance)
      ensures eEnergy == Adaptive.START_ENEMY_ENERGY && battleField == field
    {
      eEnergy := Adaptive.START_ENEMY_ENERGY;
      battleField := field;
    }

    /** onBulletMissed; roll is r.nextInt(high - low). */
    method OnBulletMissed(roll: int)
      requires Valid()
      requires 0 <= roll < Adaptive.MAX_DRAW - Adaptive.MIN_DRAW
      modifies this`keepDistance
      ensures Valid()
      ensures State() == Adaptive.BulletMissed(old(State()), roll + Adaptive.MIN_DRAW)
      ensures keepDistance == Adaptive.Max(Adaptive.MIN_KEEP_DISTANCE, old(keepDistance) - roll - Adaptive.MIN_DRAW)
      ensures keepDistance < old(keepDistance) || keepDistance == Adaptive.MIN_KEEP_DISTANCE
    {
      var low := Adaptive.MIN_DRAW;
      var high := Adaptive.MAX_DRAW;
      var result := roll + low;
      keepDistance := keepDistance - result;
      keepDistance := Adaptive.ClampKeepDistance(keepDistance);
    }

    /** onBulletHitBullet; flip is Math.random() < .6. */
    method OnBulletHitBullet(flip: bool)
      requires Valid()
      modifies this`direction
      ensures Valid()
      ensures State() == Adaptive.BulletHitBullet(old(State()), flip)
      ensures direction == old(direction) || direction == -old(direction)
    {
      if flip {
        direction := direction * -1;
      }
    }

    /** onBulletHit; energy is e.getEnergy(). */
    method OnBulletHit(energy: real)
      requires Valid()
      modifies this`eEnergy
      ensures Valid()
      ensures State() == Adaptive.BulletHit(old(State()), energy)
    {
      eEnergy := energy;
    }

    /** Carries out one wall's reaction on the running smoothing and the
        direction; a forced direction is an orbit direction. */
    method CarryOut(r: Reaction, escapes: EscapeTurns, smoothing: real) returns (acc: real)
      requires Valid()
      requires r.SetDirection? ==> r.value == 1 || r.value == -1
      modifies this`direction
      ensures Valid()
      ensures Sweep(direction, acc) == Respond(Sweep(old(direction), smoothing), r, escapes)
    {
      acc := smoothing;
      match r
      case Steer(d) => acc := smoothing + escapes.Toward(d);
      case SetDirection(v) => direction := v;
      case Keep =>
    }

    /** wallTurnSmoothing: the four wall checks, each reading the direction
        the previous ones may have forced; a nonzero accumulated smoothing
        replaces robotTurn. */
    method WallTurnSmoothing(pose: Pose, escapes: EscapeTurns, robotTurn: real) returns (turn: real)
      requires Valid()
      modifies this`direction
      ensures Valid()
      ensures var s := SweepWalls(old(direction), pose, battleField, escapes);
              direction == s.direction && turn == SmoothedTurn(s, robotTurn)
      ensures !NearAnyWall(pose, battleField) ==> turn == robotTurn && direction == old(direction)
    {
      var myX, myY := pose.x, pose.y;
      var wallSmoothing := 0.0;
      ghost var s := Sweep(direction, 0.0);
      if myY > battleField.height - WALL_DISTANCE {
        wallSmoothing := CarryOut(React(Top, direction, pose.heading), escapes, wallSmoothing);
      }
      s := Step(s, Top, pose, battleField, escapes);
      assert s == Sweep(direction, wallSmoothing);
      if myY < WALL_DISTANCE {
        wallSmoothing := CarryOut(React(Bottom, direction, pose.heading), escapes, wallSmoothing);
      }
      s := Step(s, Bottom, pose, battleField, escapes);
      assert s == Sweep(direction, wallSmoothing);
      if myX < WALL_DISTANCE {
        wallSmoothing := CarryOut(React(Left, direction, pose.heading), escapes, wallSmoothing);
      }
      s := Step(s, Left, pose, battleField, escapes);
      assert s == Sweep(direction, wallSmoothing);
      if myX > battleField.width - WALL_DISTANCE {
        wallSmoothing := CarryOut(React(Right, direction, pose.heading), escapes, wallSmoothing);
      }
      s := Step(s, Right, pose, battleField, escapes);
      assert s == Sweep(direction, wallSmoothing);
      if wallSmoothing != 0.0 {
        turn := wallSmoothing;
      } else {
        turn := robotTurn;
      }
    }

    /** wallSpeedSmoothing: each wall block may overwrite nearWall with a
        position factor times a heading fraction; a later block wins. */
    method WallSpeedSmoothing(pose: Pose) returns (nearWall: real)
      requires Valid() && IsHeading(pose.heading)
      ensures nearWall == SpeedFactor(direction, pose, battleField)
      ensures !NearAnyWall(pose, battleField) ==> nearWall == 1.0
    {
      nearWall := 1.0;
      nearWall := TopSpeedBlock(pose, nearWall);
      nearWall := BottomSpeedBlock(pose, nearWall);
      nearWall := LeftSpeedBlock(pose, nearWall);
      nearWall := RightSpeedBlock(pose, nearWall);
    }

    /** The top-wall block of wallSpeedSmoothing, with the source's formula. */
    method TopSpeedBlock(pose: Pose, before: real) returns (nearWall: real)
      requires Valid() && IsHeading(pose.heading)
      ensures nearWall == if Damps(Top, direction, pose, battleField)
                          then Damping(Top, direction, pose, battleField) else before
    {
      var myY, heading, height := pose.y, pose.heading, battleField.height;
      nearWall := before;
      if myY > height - WALL_DISTANCE {
        TopFormula(direction, pose, battleField);
        if direction == 1 {
          if heading >= 0.0 && heading <= 90.0 {
            nearWall := (2.0 - (myY - (height - WALL_DISTANCE - 100.0))
                                 / (height - (height - WALL_DISTANCE - 100.0)))
                        * (heading / 90.0);
          }
        } else {
          if heading < 180.0 && heading >= 90.0 {
            nearWall := (2.0 - (myY - (height - WALL_DISTANCE - 100.0))
                                 / (height - (height - WALL_DISTANCE - 100.0)))
                        * ((180.0 - heading) / 90.0);
          }
        }
      }
    }

    /** The bottom-wall block of wallSpeedSmoothing. */
    method BottomSpeedBlock(pose: Pose, before: real) returns (nearWall: real)
      requires Valid() && IsHeading(pose.heading)
      ensures nearWall == if Damps(Bottom, direction, pose, battleField)
                          then Damping(Bottom, direction, pose, battleField) else before
    {
      var myY, heading := pose.y, pose.heading;
      nearWall := before;
      if myY < WALL_DISTANCE {
        BottomFormula(direction, pose, battleField);
        if direction == -1 {
          if heading >= 270.0 && heading < 360.0 {
            nearWall := (2.0 - (WALL_DISTANCE - myY) / WALL_DISTANCE) * ((360.0 - heading) / 90.0);
          }
        } else {
          if heading >= 180.0 && heading <= 270.0 {
            nearWall := (2.0 - (WALL_DISTANCE - myY) / WALL_DISTANCE) * ((heading - 180.0) / 90.0);
          }
        }
      }
    }

    /** The left-wall block of wallSpeedSmoothing. */
    method LeftSpeedBlock(pose: Pose, before: real) returns (nearWall: real)
      requires Valid() && IsHeading(pose.heading)
      ensures nearWall == if Damps(Left, direction, pose, battleField)
                          then Damping(Left, direction, pose, battleField) else before
    {
      var myX, heading := pose.x, pose.heading;
      nearWall := before;
      if myX < WALL_DISTANCE {
        LeftFormula(direction, pose, battleField);
        if direction == 1 {
          if heading > 270.0 && heading < 360.0 {
            nearWall := (2.0 - (WALL_DISTANCE - myX) / WALL_DISTANCE) * ((heading - 270.0) / 90.0);
          }
        } else {
          if heading >= 0.0 && heading < 90.0 {
            nearWall := (2.0 - (WALL_DISTANCE - myX) / WALL_DISTANCE) * ((90.0 - heading) / 90.0);
          }
        }
      }
    }

    /** The right-wall block of wallSpeedSmoothing. */
    method RightSpeedBlock(pose: Pose, before: real) returns (nearWall: real)
      requires Valid() && IsHeading(pose.heading)
      ensures nearWall == if Damps(Right, direction, pose, battleField)
                          then Damping(Right, direction, pose, battleField) else before
    {
      var myX, heading, width := pose.x, pose.heading, battleField.width;
      nearWall := before;
      if myX > width - WALL_DISTANCE {
        RightFormula(direction, pose, battleField);
        if direction == 1 {
          if heading > 90.0 && heading <= 180.0 {
            nearWall := (2.0 - (myX - (width - WALL_DISTANCE - 100.0))
                                 / (width - (width - WALL_DISTANCE - 100.0)))
                        * ((heading - 90.0) / 90.0);
          }
        } else {
          if heading >= 180.0 && heading < 270.0 {
            nearWall := (2.0 - (myX - (width - WALL_DISTANCE - 100.0))
                                 / (width - (width - WALL_DISTANCE - 100.0)))
                        * ((270.0 - heading) / 90.0);
          }
        }
      }
    }

    /** onScannedRobot, without the trigonometry. flip is Math.random() < .6
        and ownEnergy is getEnergy(). */
    method OnScannedRobot(e: Scan, pose: Pose, aim: Aim, ownEnergy: real, flip: bool) returns (cmd: Commands)
      requires Valid() && IsHeading(pose.heading)
      modifies this`direction, this`eEnergy
      ensures Valid()
      ensures State() == Adaptive.ScannedRobot(old(State()), e.energy, flip, pose, battleField, aim.escapes)
      ensures var sweep := SweepWalls(old(direction), pose, battleField, aim.escapes);
              var bias := DistanceBias(e.distance, old(keepDistance), pose, battleField);
              var robotTurn := OrbitTurn(aim.relativeBearing, bias, old(direction));
              cmd == Commands(WidenRadar(aim.radarTurn), aim.gunTurn, BulletPower(e.distance, ownEnergy),
                              SmoothedTurn(sweep, robotTurn),
                              Ahead(SpeedFactor(sweep.direction, pose, battleField), direction))
    {
      var radarTurn := WidenRadar(aim.radarTurn);
      var properBullet := BulletPower(e.distance, ownEnergy);
      var getCloser := DistanceBias(e.distance, keepDistance, pose, battleField);
      var robotTurn := OrbitTurn(aim.relativeBearing, getCloser, direction);
      robotTurn := WallTurnSmoothing(pose, aim.escapes, robotTurn);
      var nearWall := WallSpeedSmoothing(pose);
      if eEnergy > e.energy {
        eEnergy := e.energy;
        if flip {
          direction := direction * -1;
        }
      } else {
        eEnergy := e.energy;
      }
      cmd := Commands(radarTurn, aim.gunTurn, properBullet, robotTurn, Ahead(nearWall, direction));
    }
  }

  // The source's damping formulas, wall by wall, against Damping.

  lemma TopFormula(direction: int, p: Pose, f: Field)
    requires IsHeading(p.heading) && InMargin(Top, p, f)
    requires direction == 1 || direction == -1
    ensures var x := 2.0 - (p.y - (f.height - WALL_DISTANCE - 100.0))
                           / (f.height - (f.height - WALL_DISTANCE - 100.0));
            && (direction == 1 && 0.0 <= p.heading <= 90.0 ==>
                  Damping(Top, direction, p, f) == x * (p.heading / 90.0))
            && (direction != 1 && 90.0 <= p.heading < 180.0 ==>
                  Damping(Top, direction, p, f) == x * ((180.0 - p.heading) / 90.0))
  {
  }

  lemma BottomFormula(direction: int, p: Pose, f: Field)
    requires IsHeading(p.heading) && InMargin(Bottom, p, f)
    requires direction == 1 || direction == -1
    ensures var x := 2.0 - (WALL_DISTANCE - p.y) / WALL_DISTANCE;
            && (direction == -1 && 270.0 <= p.heading < 360.0 ==>
                  Damping(Bottom, direction, p, f) == x * ((360.0 - p.heading) / 90.0))
            && (direction != -1 && 180.0 <= p.heading <= 270.0 ==>
                  Damping(Bottom, direction, p, f) == x * ((p.heading - 180.0) / 90.0))
  {
  }

  lemma LeftFormula(direction: int, p: Pose, f: Field)
    requires IsHeading(p.heading) && InMargin(Left, p, f)
    requires direction == 1 || direction == -1
    ensures var x := 2.0 - (WALL_DISTANCE - p.x) / WALL_DISTANCE;
            && (direction == 1 && 270.0 < p.heading < 360.0 ==>
                  Damping(Left, direction, p, f) == x * ((p.heading - 270.0) / 90.0))
            && (direction != 1 && 0.0 <= p.heading < 90.0 ==>
                  Damping(Left, direction, p, f) == x * ((90.0 - p.heading) / 90.0))
  {
  }

  lemma RightFormula(direction: int, p: Pose, f: Field)
    requires IsHeading(p.heading) && InMargin(Right, p, f)
    requires direction == 1 || direction == -1
    ensures var x := 2.0 - (p.x - (f.width - WALL_DISTANCE - 100.0))
                           / (f.width - (f.width - WALL_DISTANCE - 100.0));
            && (direction == 1 && 90.0 < p.heading <= 180.0 ==>
                  Damping(Right, direction, p, f) == x * ((p.heading - 90.0) / 90.0))
            && (direction != 1 && 180.0 <= p.heading < 270.0 ==>
                  Damping(Right, direction, p, f) == x * ((270.0 - p.heading) / 90.0))
  {
  }
}
