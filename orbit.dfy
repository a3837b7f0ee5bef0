/**
  The straight-line aiming and orbit arithmetic of MechuEY.onScannedRobot:
  bullet power, radar widening, the distance bias that keeps the stand-off
  distance, and the orbit turn it feeds. The trigonometry (enemy position,
  atan2, asin, normalRelativeAngle) is done by the host and arrives as
  parameters.
*/
module Orbit {
  import opened Geometry

  /** Java's Math.PI. */
  const PI: real := 3.141592653589793

  /** robocode.Rules.MAX_VELOCITY, pixels per tick. */
  const MAX_VELOCITY: real := 8.0

  /** robocode.Rules.RADAR_TURN_RATE_RADIANS: 45 degrees per tick. */
  const RADAR_TURN_RATE_RADIANS: real := PI / 4.0

  /** The extra radar turn added in the direction of the turn. */
  const RADAR_EXTRA_TURN: real := RADAR_TURN_RATE_RADIANS / 2.5

  /** The distance at which the bullet power reaches zero. */
  const POWER_RANGE: real := 600.0

  /** The distance at which the distance bias reaches its full lean; it is
      also the constant of the bias's divisor 400 - keepDistance. */
  const FULL_LEAN_DISTANCE: real := 400.0

  /** properBullet: Math.min((1 - distance / 600) * 4, getEnergy()). */
  function BulletPower(distance: real, energy: real): (power: real)
    ensures power <= energy
    ensures power <= (1.0 - distance / POWER_RANGE) * 4.0
    ensures power == energy || power == (1.0 - distance / POWER_RANGE) * 4.0
    ensures distance >= POWER_RANGE ==> power <= 0.0
    ensures distance > POWER_RANGE && energy >= 0.0 ==> power < 0.0
  {
    var byRange := (1.0 - distance / POWER_RANGE) * 4.0;
    if byRange <= energy then byRange else energy
  }

  /** Closer enemies get stronger bullets. */
  lemma BulletPowerFallsWithDistance(near: real, far: real, energy: real)
    requires near <= far
    ensures BulletPower(far, energy) <= BulletPower(near, energy)
  {
  }

  /** The radar turn to the enemy, widened by RADAR_EXTRA_TURN in the
      direction of the turn (a zero turn counts as clockwise). */
  function WidenRadar(turn: real): (r: real)
    ensures turn < 0.0 <==> r < 0.0
    ensures r != 0.0
    ensures (if r < 0.0 then -r else r) == (if turn < 0.0 then -turn else turn) + RADAR_EXTRA_TURN
  {
    if turn < 0.0 then turn - RADAR_EXTRA_TURN else turn + RADAR_EXTRA_TURN
  }

  /** getCloser: positive when the enemy is farther than the stand-off
      distance, negative when it is nearer, and 0 unless the robot is
      strictly more than the wall margin away from every wall. */
  function DistanceBias(distance: real, keepDistance: int, p: Pose, f: Field): (b: real)
    requires keepDistance < 400
    ensures !Interior(p, f) ==> b == 0.0
    ensures Interior(p, f) ==> b * (FULL_LEAN_DISTANCE - keepDistance as real) == distance - keepDistance as real
  {
    if p.x > WALL_DISTANCE && p.x < f.width - WALL_DISTANCE && p.y > WALL_DISTANCE
       && p.y < f.height - WALL_DISTANCE
    then (distance - keepDistance as real) / (FULL_LEAN_DISTANCE - keepDistance as real)
    else 0.0
  }

  /** In the interior the bias has the sign of distance - keepDistance and
      reaches the full lean of 1 exactly from distance 400 on. */
  lemma DistanceBiasSign(distance: real, keepDistance: int, p: Pose, f: Field)
    requires keepDistance < 400 && Interior(p, f)
    ensures DistanceBias(distance, keepDistance, p, f) > 0.0 <==> distance > keepDistance as real
    ensures DistanceBias(distance, keepDistance, p, f) == 0.0 <==> distance == keepDistance as real
    ensures DistanceBias(distance, keepDistance, p, f) >= 1.0 <==> distance >= FULL_LEAN_DISTANCE
  {
    var b := DistanceBias(distance, keepDistance, p, f);
    var span := FULL_LEAN_DISTANCE - keepDistance as real;
    assert span > 0.0;
    assert b * span == distance - keepDistance as real;
    assert b > 0.0 ==> b * span > 0.0;
    assert b < 0.0 ==> b * span < 0.0;
    assert b >= 1.0 ==> b * span >= span;
    assert b < 1.0 ==> b * span < span;
  }

  /** Math.max(-1, Math.min(bias, 1)). */
  function Lean(bias: real): (l: real)
    ensures -1.0 <= l <= 1.0
    ensures -1.0 <= bias <= 1.0 ==> l == bias
    ensures bias > 1.0 ==> l == 1.0
    ensures bias < -1.0 ==> l == -1.0
  {
    var capped := if bias <= 1.0 then bias else 1.0;
    if -1.0 >= capped then -1.0 else capped
  }

  /** robotTurn before wall smoothing: a quarter turn away from the relative
      bearing to the enemy, leaning up to an eighth turn towards it or away
      from it, with the lean's sign flipped by the orbit direction. */
  function OrbitTurn(relativeBearing: real, bias: real, direction: int): (t: real)
    ensures direction == 1 || direction == -1 ==>
              relativeBearing - 3.0 * PI / 4.0 <= t <= relativeBearing - PI / 4.0
    ensures bias == 0.0 ==> t == relativeBearing - PI / 2.0
    ensures direction == 1 ==> (t > relativeBearing - PI / 2.0 <==> bias > 0.0)
    ensures direction == -1 ==> (t > relativeBearing - PI / 2.0 <==> bias < 0.0)
  {
    relativeBearing - PI / 2.0 + PI / 4.0 * Lean(bias) * direction as real
  }

  /** The setAhead distance: MAX_VELOCITY * (2.5 * nearWall) * direction. */
  function Ahead(nearWall: real, direction: int): (d: real)
    ensures direction == 1 || direction == -1 ==>
              (0.0 <= nearWall < 2.0 ==> -40.0 < d < 40.0)
    ensures nearWall == 1.0 && direction == 1 ==> d == 20.0
    ensures nearWall == 1.0 && direction == -1 ==> d == -20.0
    ensures nearWall > 0.0 ==> (d > 0.0 <==> direction > 0)
  {
    MAX_VELOCITY * (2.5 * nearWall) * direction as real
  }
}
