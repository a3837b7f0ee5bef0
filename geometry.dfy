/**
  Headings, walls and positions on a Robocode battlefield.

  Headings are compass degrees as the host reports them (getHeading()):
  0 is north, towards larger y, and they grow clockwise, so a robot with
  heading h moves by (sin h, cos h). Positions are field coordinates with
  the origin in the bottom-left corner.
*/
module Geometry {

  /** A heading as getHeading() reports it: degrees in [0, 360). */
  predicate IsHeading(h: real) {
    0.0 <= h < 360.0
  }

  /** The four edges of the battlefield. */
  datatype Wall = Top | Bottom | Left | Right

  /** The four diagonal escape headings the robot steers to near a wall,
      named by compass point: atan2(100, 100) is NE, atan2(100, -100) is SE,
      atan2(-100, -100) is SW and atan2(-100, 100) is NW. */
  datatype Diagonal = NE | SE | SW | NW

  /** The compass heading of a diagonal. */
  function Bearing(d: Diagonal): (b: real)
    ensures IsHeading(b)
    ensures b == 45.0 || b == 135.0 || b == 225.0 || b == 315.0
  {
    match d
    case NE => 45.0
    case SE => 135.0
    case SW => 225.0
    case NW => 315.0
  }

  /** The heading straight into a wall. */
  function HeadOn(w: Wall): (b: real)
    ensures IsHeading(b)
  {
    match w
    case Top => 0.0
    case Right => 90.0
    case Bottom => 180.0
    case Left => 270.0
  }

  /** The heading the robot actually travels along. The robot drives with
      setAhead(... * direction), so with direction -1 it backs up and
      travels opposite to its heading. */
  function Travel(h: real, direction: int): (m: real)
    requires IsHeading(h)
    ensures IsHeading(m)
    ensures direction == 1 ==> m == h
    ensures direction != 1 ==> m != h && (m - h == 180.0 || h - m == 180.0)
  {
    if direction == 1 then h
    else if h < 180.0 then h + 180.0
    else h - 180.0
  }

  /** The smaller angle, in degrees, between two headings. */
  function AngularDistance(a: real, b: real): (r: real)
    requires IsHeading(a) && IsHeading(b)
    ensures 0.0 <= r <= 180.0
    ensures r == 0.0 <==> a == b
  {
    var d := if a <= b then b - a else a - b;
    if d <= 180.0 then d else 360.0 - d
  }

  /** Travelling along m gets strictly closer to wall w. */
  predicate HeadsInto(w: Wall, m: real) {
    match w
    case Top => m < 90.0 || m > 270.0
    case Bottom => 90.0 < m < 270.0
    case Left => m > 180.0
    case Right => 0.0 < m < 180.0
  }

  /** Travelling along m gets closer to wall w or runs parallel to it. */
  predicate HeadsIntoOrAlong(w: Wall, m: real) {
    match w
    case Top => m <= 90.0 || m >= 270.0
    case Bottom => 90.0 <= m <= 270.0
    case Left => m == 0.0 || m >= 180.0
    case Right => m <= 180.0
  }

  /** Where the robot is and where it points this tick (getX(), getY(), getHeading()). */
  datatype Pose = Pose(x: real, y: real, heading: real)

  /** The battlefield's size (getBattleFieldWidth(), getBattleFieldHeight()). */
  datatype Field = Field(width: real, height: real)

  /** The near-wall margin, the field wallDistance of MechuEY. */
  const WALL_DISTANCE: real := 100.0

  /** How far the robot is from a wall; negative once it is past it. */
  function DistanceToWall(w: Wall, p: Pose, f: Field): real {
    match w
    case Top => f.height - p.y
    case Bottom => p.y
    case Left => p.x
    case Right => f.width - p.x
  }

  /** The robot is inside wall w's margin: the test each wall block of
      wallTurnSmoothing and wallSpeedSmoothing starts with. */
  predicate InMargin(w: Wall, p: Pose, f: Field) {
    DistanceToWall(w, p, f) < WALL_DISTANCE
  }

  predicate NearAnyWall(p: Pose, f: Field) {
    InMargin(Top, p, f) || InMargin(Bottom, p, f) || InMargin(Left, p, f) || InMargin(Right, p, f)
  }

  /** Strictly more than the margin away from every wall: onScannedRobot's
      test before it lets the distance bias act. */
  predicate Interior(p: Pose, f: Field) {
    && DistanceToWall(Top, p, f) > WALL_DISTANCE
    && DistanceToWall(Bottom, p, f) > WALL_DISTANCE
    && DistanceToWall(Left, p, f) > WALL_DISTANCE
    && DistanceToWall(Right, p, f) > WALL_DISTANCE
  }

  /** The position lies on the battlefield. */
  predicate InField(p: Pose, f: Field) {
    0.0 <= p.x <= f.width && 0.0 <= p.y <= f.height
  }

  /** A field large enough that opposite margins never overlap. */
  predicate Roomy(f: Field) {
    f.width >= 2.0 * WALL_DISTANCE && f.height >= 2.0 * WALL_DISTANCE
  }

  /** Inside a margin is never interior; the converse fails only on the
      margin's edge, exactly WALL_DISTANCE from a wall. */
  lemma MarginIsNotInterior(p: Pose, f: Field)
    ensures NearAnyWall(p, f) ==> !Interior(p, f)
    ensures !Interior(p, f) && !NearAnyWall(p, f) ==>
              exists w: Wall :: DistanceToWall(w, p, f) == WALL_DISTANCE
  {
  }
}
