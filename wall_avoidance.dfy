/**
  Boundary avoidance of MechuEY: the per-wall reaction table behind
  wallTurnSmoothing, the four-wall sweep it performs, and the speed damping
  of wallSpeedSmoothing.

  A wall check that fires either steers towards a diagonal escape heading
  or forces the orbit direction; the sweep runs the checks for the top,
  bottom, left and right walls in that order, so a later check sees the
  direction an earlier one wrote.
*/
module WallAvoidance {
  import opened Geometry

  /** What one wall's check does once the robot is inside that wall's margin. */
  datatype Reaction = Steer(toward: Diagonal) | SetDirection(value: int) | Keep

  /** The reaction table of wallTurnSmoothing: for each wall, the branch on
      the orbit direction and then on the heading in degrees. */
  function React(w: Wall, direction: int, h: real): (r: Reaction)
    ensures r.SetDirection? ==> r.value == 1 || r.value == -1
    ensures (direction == 1 || direction == -1) && r.SetDirection? ==> r.value == -direction
    ensures !IsHeading(h) ==> r == Keep
  {
    match w
    case Top =>
      if direction == 1 then
        if 0.0 <= h <= 90.0 then Steer(SE)
        else if 270.0 <= h < 360.0 then SetDirection(-1)
        else Keep
      else
        if 90.0 <= h < 180.0 then Steer(NE)
        else if 180.0 <= h <= 270.0 then SetDirection(1)
        else Keep
    case Bottom =>
      if direction == -1 then
        if 0.0 <= h <= 90.0 then SetDirection(1)
        else if 270.0 <= h < 360.0 then Steer(SW)
        else Keep
      else
        if 90.0 <= h < 180.0 then SetDirection(-1)
        else if 180.0 <= h <= 270.0 then Steer(NW)
        else Keep
    case Left =>
      if direction == 1 then
        if 270.0 < h < 360.0 then Steer(NE)
        else if 180.0 <= h <= 270.0 then SetDirection(-1)
        else Keep
      else
        if 90.0 <= h < 180.0 then SetDirection(1)
        else if 0.0 <= h < 90.0 then Steer(NW)
        else Keep
    case Right =>
      if direction == 1 then
        if 90.0 < h <= 180.0 then Steer(SW)
        else if 0.0 <= h <= 90.0 then SetDirection(-1)
        else Keep
      else
        if 270.0 <= h < 360.0 then SetDirection(1)
        else if 180.0 <= h < 270.0 then Steer(SE)
        else Keep
  }

  /** The signed turn, in radians, from the current heading to each diagonal:
      normalRelativeAngle(atan2(..) - getHeadingRadians()), which the host's
      floating-point trigonometry computes. */
  datatype EscapeTurns = EscapeTurns(ne: real, se: real, sw: real, nw: real) {
    function Toward(d: Diagonal): real {
      match d
      case NE => ne
      case SE => se
      case SW => sw
      case NW => nw
    }
  }

  /** What wallTurnSmoothing carries from one wall check to the next: the
      orbit direction and the accumulated wallSmoothing. */
  datatype Sweep = Sweep(direction: int, smoothing: real)

  /** Carrying out a reaction: a steer adds its escape turn to the
      smoothing, a forced direction replaces the direction. */
  function Respond(s: Sweep, r: Reaction, e: EscapeTurns): (t: Sweep)
    ensures r.Steer? ==> t.direction == s.direction && t.smoothing - s.smoothing == e.Toward(r.toward)
    ensures r.SetDirection? ==> t.smoothing == s.smoothing && t.direction == r.value
    ensures r.Keep? ==> t == s
  {
    match r
    case Steer(d) => s.(smoothing := s.smoothing + e.Toward(d))
    case SetDirection(v) => s.(direction := v)
    case Keep => s
  }

  /** One wall check: outside the wall's margin it changes nothing; inside,
      it changes the smoothing or the direction but never both, and an
      orbit direction stays the same or is negated. */
  function Step(s: Sweep, w: Wall, p: Pose, f: Field, e: EscapeTurns): (t: Sweep)
    ensures !InMargin(w, p, f) ==> t == s
    ensures t.direction == s.direction || t.smoothing == s.smoothing
    ensures s.direction == 1 || s.direction == -1 ==>
              t.direction == s.direction || t.direction == -s.direction
  {
    if !InMargin(w, p, f) then s
    else Respond(s, React(w, s.direction, p.heading), e)
  }

  /** The four wall checks of wallTurnSmoothing, in source order, from a
      zero smoothing; the direction that comes out is again an orbit
      direction, and away from every wall nothing changes. */
  function SweepWalls(direction: int, p: Pose, f: Field, e: EscapeTurns): (s: Sweep)
    ensures direction == 1 || direction == -1 ==> s.direction == 1 || s.direction == -1
    ensures !NearAnyWall(p, f) ==> s == Sweep(direction, 0.0)
  {
    var top := Step(Sweep(direction, 0.0), Top, p, f, e);
    var bottom := Step(top, Bottom, p, f, e);
    var left := Step(bottom, Left, p, f, e);
    Step(left, Right, p, f, e)
  }

  /** The turn wallTurnSmoothing returns: a nonzero smoothing replaces the
      orbit's turn entirely. */
  function SmoothedTurn(s: Sweep, robotTurn: real): (t: real)
    ensures t == robotTurn || t == s.smoothing
    ensures s.smoothing != 0.0 ==> t == s.smoothing
    ensures s.smoothing == 0.0 ==> t == robotTurn
  {
    if s.smoothing != 0.0 then s.smoothing else robotTurn
  }

  // ---------------------------------------------------------------------
  // The reaction table against the robot's direction of travel
  // ---------------------------------------------------------------------

  /** A wall check acts whenever the robot travels strictly into that wall. */
  lemma ReactActsWhenHeadingInto(w: Wall, direction: int, h: real)
    requires IsHeading(h) && (direction == 1 || direction == -1)
    requires HeadsInto(w, Travel(h, direction))
    ensures !React(w, direction, h).Keep?
  {
  }

  /** A wall check acts only when the robot travels into that wall or along it. */
  lemma ReactActsOnlyWhenHeadingIntoOrAlong(w: Wall, direction: int, h: real)
    requires IsHeading(h) && (direction == 1 || direction == -1)
    requires !React(w, direction, h).Keep?
    ensures HeadsIntoOrAlong(w, Travel(h, direction))
  {
  }

  /** Forcing the direction reverses the travel so that it no longer heads into the wall. */
  lemma ReactFlipLeavesWall(w: Wall, direction: int, h: real)
    requires IsHeading(h) && (direction == 1 || direction == -1)
    requires React(w, direction, h).SetDirection?
    ensures !HeadsInto(w, Travel(h, React(w, direction, h).value))
  {
  }

  /** Steering picks a diagonal that, driven in the current direction, moves
      strictly away from the wall. */
  lemma ReactSteerLeavesWall(w: Wall, direction: int, h: real)
    requires (direction == 1 || direction == -1)
    requires React(w, direction, h).Steer?
    ensures !HeadsIntoOrAlong(w, Travel(Bearing(React(w, direction, h).toward), direction))
  {
  }

  /** For a given direction and heading at most one wall steers, except at
      heading 180 with direction 1, where both the bottom and the right
      wall's checks steer. */
  lemma ReactSteersForOneWall(w: Wall, v: Wall, direction: int, h: real)
    requires direction == 1 || direction == -1
    requires React(w, direction, h).Steer? && React(v, direction, h).Steer?
    ensures w == v || (direction == 1 && h == 180.0 && {w, v} == {Bottom, Right})
  {
  }

  // ---------------------------------------------------------------------
  // The four-wall sweep
  // ---------------------------------------------------------------------

  /** Away from every wall the turn is left alone. */
  lemma SweepAwayFromWalls(direction: int, p: Pose, f: Field, e: EscapeTurns, robotTurn: real)
    requires !NearAnyWall(p, f)
    ensures SmoothedTurn(SweepWalls(direction, p, f, e), robotTurn) == robotTurn
  {
  }

  /** On a field at least twice the margin wide and high the smoothing is
      zero or a single escape turn; the one sum of two escape turns arises,
      and always arises, in the bottom-right corner at heading 180 with
      direction 1, where both the bottom and the right wall's checks steer. */
  lemma SweepSteersAtMostOnce(direction: int, p: Pose, f: Field, e: EscapeTurns)
    requires Roomy(f) && (direction == 1 || direction == -1)
    ensures var s := SweepWalls(direction, p, f, e).smoothing;
            s in {0.0, e.ne, e.se, e.sw, e.nw}
            || (s == e.nw + e.sw && direction == 1 && p.heading == 180.0
                && InMargin(Bottom, p, f) && InMargin(Right, p, f))
    ensures direction == 1 && p.heading == 180.0 && InMargin(Bottom, p, f) && InMargin(Right, p, f) ==>
              SweepWalls(direction, p, f, e).smoothing == e.nw + e.sw
  {
  }

  /** Near a single wall the sweep glides along it: either it steers to a
      diagonal leading away from the wall, keeping the direction, or it
      leaves the turn alone and the robot does not travel into the wall. */
  lemma SweepNearOneWall(w: Wall, direction: int, p: Pose, f: Field, e: EscapeTurns)
    requires IsHeading(p.heading) && (direction == 1 || direction == -1)
    requires InMargin(w, p, f)
    requires forall v: Wall :: v != w ==> !InMargin(v, p, f)
    ensures var s := SweepWalls(direction, p, f, e);
            if React(w, direction, p.heading).Steer? then
              var d := React(w, direction, p.heading).toward;
              && s == Sweep(direction, e.Toward(d))
              && !HeadsIntoOrAlong(w, Travel(Bearing(d), direction))
            else
              && s.smoothing == 0.0
              && !HeadsInto(w, Travel(p.heading, s.direction))
  {
  }

  /** In each corner one combination of direction and heading makes the
      side wall's check undo the flip forced by the top or bottom wall's
      check: the sweep then changes nothing, the robot keeps travelling
      into (or along) the top or bottom wall, and no wall damps its speed. */
  lemma SweepCornerFlipsCancel(direction: int, p: Pose, f: Field, e: EscapeTurns)
    requires IsHeading(p.heading) && Roomy(f)
    requires (InMargin(Top, p, f) && InMargin(Left, p, f) && direction == -1 && 180.0 <= p.heading <= 270.0)
          || (InMargin(Top, p, f) && InMargin(Right, p, f) && direction == 1 && 270.0 <= p.heading)
          || (InMargin(Bottom, p, f) && InMargin(Left, p, f) && direction == 1 && 90.0 <= p.heading < 180.0)
          || (InMargin(Bottom, p, f) && InMargin(Right, p, f) && direction == -1 && p.heading <= 90.0)
    ensures SweepWalls(direction, p, f, e) == Sweep(direction, 0.0)
    ensures InMargin(Top, p, f) ==> HeadsIntoOrAlong(Top, Travel(p.heading, direction))
    ensures InMargin(Bottom, p, f) ==> HeadsIntoOrAlong(Bottom, Travel(p.heading, direction))
    ensures SpeedFactor(direction, p, f) == 1.0
  {
  }

  // ---------------------------------------------------------------------
  // Speed damping (wallSpeedSmoothing)
  // ---------------------------------------------------------------------

  /** The width of the band over which wallSpeedSmoothing interpolates the
      position factor: wallDistance + 100 for the top and right walls,
      wallDistance for the bottom and left walls. */
  function Band(w: Wall): (b: real)
    ensures b >= WALL_DISTANCE
  {
    match w
    case Top => WALL_DISTANCE + 100.0
    case Right => WALL_DISTANCE + 100.0
    case Bottom => WALL_DISTANCE
    case Left => WALL_DISTANCE
  }

  /** Wall w damps the speed: the robot is inside its margin and the
      wall's check in wallTurnSmoothing would steer. */
  predicate Damps(w: Wall, direction: int, p: Pose, f: Field): (d: bool)
    ensures d && IsHeading(p.heading) && (direction == 1 || direction == -1) ==>
              HeadsIntoOrAlong(w, Travel(p.heading, direction))
  {
    InMargin(w, p, f) && React(w, direction, p.heading).Steer?
  }

  /** The multiplier wall w imposes: a position factor growing from 1 at the
      wall with the distance to it, times the angle between the travel and
      the head-on heading as a fraction of a quarter turn. */
  function Damping(w: Wall, direction: int, p: Pose, f: Field): (r: real)
    requires IsHeading(p.heading)
    ensures Travel(p.heading, direction) == HeadOn(w) ==> r == 0.0
    ensures DistanceToWall(w, p, f) == 0.0 ==>
              r == AngularDistance(Travel(p.heading, direction), HeadOn(w)) / 90.0
  {
    (1.0 + DistanceToWall(w, p, f) / Band(w))
    * AngularDistance(Travel(p.heading, direction), HeadOn(w)) / 90.0
  }

  /** The multiplier wallSpeedSmoothing returns. Its wall blocks overwrite
      one another in the order top, bottom, left, right, so the last
      damping wall decides. */
  function SpeedFactor(direction: int, p: Pose, f: Field): (r: real)
    requires IsHeading(p.heading)
    ensures !NearAnyWall(p, f) ==> r == 1.0
  {
    if Damps(Right, direction, p, f) then Damping(Right, direction, p, f)
    else if Damps(Left, direction, p, f) then Damping(Left, direction, p, f)
    else if Damps(Bottom, direction, p, f) then Damping(Bottom, direction, p, f)
    else if Damps(Top, direction, p, f) then Damping(Top, direction, p, f)
    else 1.0
  }

  /** While a wall damps, the travel is within a quarter turn of head-on. */
  lemma SteerIsWithinQuarterTurn(w: Wall, direction: int, h: real)
    requires IsHeading(h) && (direction == 1 || direction == -1)
    requires React(w, direction, h).Steer?
    ensures AngularDistance(Travel(h, direction), HeadOn(w)) <= 90.0
  {
  }

  /** 0 <= a * b / 90 < 2 for a position factor and an angle of at most a quarter turn. */
  lemma ScaledFactorBounds(a: real, b: real)
    requires 1.0 <= a < 2.0 && 0.0 <= b <= 90.0
    ensures 0.0 <= a * b / 90.0 < 2.0
  {
    assert 0.0 <= a * b;
    assert a * b <= 2.0 * b;
  }

  /** On the battlefield a damping wall's multiplier lies in [0, 2), and it
      is 0 exactly when the robot drives head-on into the wall. */
  lemma DampingBounds(w: Wall, direction: int, p: Pose, f: Field)
    requires IsHeading(p.heading) && (direction == 1 || direction == -1)
    requires InField(p, f) && Damps(w, direction, p, f)
    ensures 0.0 <= Damping(w, direction, p, f) < 2.0
    ensures Damping(w, direction, p, f) == 0.0 <==> Travel(p.heading, direction) == HeadOn(w)
  {
    var a := 1.0 + DistanceToWall(w, p, f) / Band(w);
    var b := AngularDistance(Travel(p.heading, direction), HeadOn(w));
    assert 0.0 <= DistanceToWall(w, p, f) < WALL_DISTANCE;
    assert 1.0 <= a < 2.0;
    SteerIsWithinQuarterTurn(w, direction, p.heading);
    ScaledFactorBounds(a, b);
    assert Damping(w, direction, p, f) == a * b / 90.0;
    if b > 0.0 {
      assert a * b >= b;
    }
  }

  /** On the battlefield wallSpeedSmoothing's multiplier lies in [0, 2). */
  lemma SpeedFactorBounds(direction: int, p: Pose, f: Field)
    requires IsHeading(p.heading) && (direction == 1 || direction == -1)
    requires InField(p, f)
    ensures 0.0 <= SpeedFactor(direction, p, f) < 2.0
  {
    if Damps(Right, direction, p, f) {
      DampingBounds(Right, direction, p, f);
    } else if Damps(Left, direction, p, f) {
      DampingBounds(Left, direction, p, f);
    } else if Damps(Bottom, direction, p, f) {
      DampingBounds(Bottom, direction, p, f);
    } else if Damps(Top, direction, p, f) {
      DampingBounds(Top, direction, p, f);
    }
  }

  /** The overwriting order matters only at heading 180 with direction 1:
      otherwise at most one wall damps, and the multiplier is its damping. */
  lemma SpeedFactorIsTheDampingWall(w: Wall, direction: int, p: Pose, f: Field)
    requires IsHeading(p.heading) && (direction == 1 || direction == -1)
    requires Damps(w, direction, p, f)
    requires w == Right || !(direction == 1 && p.heading == 180.0)
    ensures SpeedFactor(direction, p, f) == Damping(w, direction, p, f)
  {
  }
}
