# MechuEY: adaptive state and wall avoidance

MechuEY is a Robocode `AdvancedRobot` that orbits its enemy. This project
models the parts of the robot that make decisions:

- the three pieces of adaptive state: the orbit `direction` (1 clockwise,
  -1 counter-clockwise), the stand-off distance `keepDistance`, and the
  enemy energy `eEnergy` last seen;
- the event handlers that update this state: `onBulletMissed`,
  `onBulletHitBullet`, `onBulletHit`, and the "enemy fired" branch of
  `onScannedRobot`;
- the straight-line arithmetic of `onScannedRobot`: bullet power, radar
  widening, the `getCloser` distance bias, its clamp and the orbit turn;
- `wallTurnSmoothing`: four wall checks, each of which may steer towards a
  diagonal escape heading or force the orbit direction;
- `wallSpeedSmoothing`: the speed multiplier near a wall.

The model has five modules:

- `Geometry`: headings, walls, margins, and the heading the robot actually
  travels along. With direction -1 the robot backs up, so it travels
  opposite to its heading.
- `WallAvoidance`: the per-wall reaction table `React`, the four-wall fold
  `SweepWalls`, and the speed multiplier `SpeedFactor`. These are proved
  against an independent description in terms of travel: does the robot
  head into a wall, along it, or away from it?
- `Orbit`: the aiming and orbit expressions of `onScannedRobot`, as
  functions.
- `Adaptive`: the robot's state as a value, one transition per handler, and
  `Replay`, a fold over any sequence of events. It carries the invariant
  that every handler keeps.
- `Robot`: the class `MechuEY` with the source's fields. Each handler and
  helper is a method over these fields that makes the source's tests and
  assignments in the source's order. `wallTurnSmoothing` reads each wall's
  branch from `React` and carries it out with `CarryOut`, and
  `wallSpeedSmoothing` runs its four wall blocks as four methods. Each
  method is proved equal to the value-level definition.

Some behaviours of the code are proved as they stand:

- **Corners.** In each corner one combination of direction and heading
  makes the side wall's check undo the direction that the top or bottom
  wall's check has just forced. The sweep then changes nothing, and no
  wall damps the speed, so the robot drives at full speed into or along the
  top or bottom wall (`SweepCornerFlipsCancel`).
- **Heading 180 with direction 1.** Here both the bottom and the right
  wall's checks steer, and only these two ever overlap
  (`ReactSteersForOneWall`). In the bottom-right corner the smoothing is
  then always the sum of two escape turns (`SweepSteersAtMostOnce`). For the speed, the
  right wall's block overwrites the bottom's (`SpeedFactorIsTheDampingWall`).
- **Band widths.** The top and right speed formulas interpolate over a band
  200 pixels wide, the bottom and left ones over 100 pixels. So at the
  margin's edge the position factor is 1.5 near the top and right walls and
  2 near the bottom and left walls (`Band`).
- **Bullet power.** The power is not floored at zero. Beyond 600 pixels it is
  negative (`BulletPower`).
- **The margin edge.** `getCloser`'s interior test is strict, while each wall
  block tests `< wallDistance`. At exactly 100 pixels from a wall the bias is
  therefore 0, but no wall block fires (`MarginIsNotInterior`).

## Model

| member | source | states |
|---|---|---|
| Geometry.Travel | MechuEY.java:120 | the robot travels along its heading when direction is 1, and along the opposite heading otherwise |
| Geometry.Bearing | MechuEY.java:159-160 | the four diagonal escape headings atan2(±100, ±100) are the compass headings 45, 135, 225 and 315 |
| Geometry.MarginIsNotInterior | MechuEY.java:91-92 | a robot inside any wall margin is never interior for getCloser; the reverse fails only exactly wallDistance from a wall |
| WallAvoidance.React | MechuEY.java:155-232 | the reaction table of the four wall checks: every forced direction is 1 or -1, and the negation of an orbit direction; a heading outside [0, 360) triggers nothing |
| WallAvoidance.ReactActsWhenHeadingInto | MechuEY.java:155-232 | when the robot travels strictly into a wall, that wall's check steers or forces the direction |
| WallAvoidance.ReactActsOnlyWhenHeadingIntoOrAlong | MechuEY.java:155-232 | a wall check acts only when the robot travels into that wall or along it |
| WallAvoidance.ReactFlipLeavesWall | MechuEY.java:162-169 | after a forced direction, the robot no longer travels into that wall |
| WallAvoidance.ReactSteerLeavesWall | MechuEY.java:158-167 | the diagonal a wall check steers to, driven in the current direction, moves strictly away from that wall |
| WallAvoidance.ReactSteersForOneWall | MechuEY.java:155-232 | for one direction and heading at most one wall steers, except the bottom and right walls at heading 180 with direction 1 |
| WallAvoidance.Respond | MechuEY.java:158-229 | a steer adds exactly its escape turn and keeps the direction, a forced direction replaces the direction and keeps the smoothing, and no reaction changes nothing |
| WallAvoidance.Step | MechuEY.java:156-172 | one wall check: outside its margin nothing changes; inside, the smoothing or the direction changes but never both, and an orbit direction is kept or negated |
| WallAvoidance.SweepWalls | MechuEY.java:153-233 | the four checks in source order from a zero smoothing: an orbit direction comes out as 1 or -1, and away from every wall direction and smoothing are unchanged |
| WallAvoidance.SmoothedTurn | MechuEY.java:235-239 | the turn is the accumulated smoothing when that is nonzero, and robotTurn exactly when it is zero |
| WallAvoidance.SweepAwayFromWalls | MechuEY.java:153-156 | outside every wall margin wallTurnSmoothing returns robotTurn unchanged |
| WallAvoidance.SweepSteersAtMostOnce | MechuEY.java:153-233 | on a field twice the margin wide and high, the smoothing is 0 or one escape turn, except the sum nw + sw, which arises exactly at heading 180 with direction 1 in the bottom-right corner |
| WallAvoidance.SweepNearOneWall | MechuEY.java:150-240 | near a single wall, the sweep either steers to a diagonal leading away from the wall and keeps the direction, or accumulates 0 and leaves the robot not travelling into the wall |
| WallAvoidance.SweepCornerFlipsCancel | MechuEY.java:155-233 | in each corner one direction and heading range has the side wall undo the top or bottom wall's forced direction, so the sweep changes nothing, and the robot keeps travelling into or along the top wall (top corners) or the bottom wall (bottom corners), with the speed multiplier left at 1 |
| WallAvoidance.Band | MechuEY.java:252-254 | the interpolation band of the speed formulas is at least wallDistance wide |
| WallAvoidance.Damps | MechuEY.java:249-314 | a wall damps the speed only while the robot, in an orbit direction, travels into or along that wall |
| WallAvoidance.Damping | MechuEY.java:252-318 | the reference damping, position factor times the angle from head-on over 90 degrees: 0 when driving head-on into the wall, and the bare angle fraction at the wall itself |
| WallAvoidance.SpeedFactor | MechuEY.java:243-325 | outside every wall margin the speed multiplier is 1 |
| WallAvoidance.SteerIsWithinQuarterTurn | MechuEY.java:251-318 | while a wall damps the speed, the travel is within 90 degrees of driving head-on into it |
| WallAvoidance.DampingBounds | MechuEY.java:252-318 | on the field a damping wall's multiplier lies in [0, 2), and is 0 exactly when the robot drives head-on into that wall |
| WallAvoidance.SpeedFactorBounds | MechuEY.java:243-325 | on the field the speed multiplier lies in [0, 2) |
| WallAvoidance.SpeedFactorIsTheDampingWall | MechuEY.java:248-322 | apart from heading 180 with direction 1, the multiplier is the damping of the one wall that damps |
| Orbit.BulletPower | MechuEY.java:65 | the power is at most the own energy and at most the range-based power, equals one of them, and is negative beyond 600 pixels for nonnegative energy |
| Orbit.BulletPowerFallsWithDistance | MechuEY.java:65 | a nearer enemy never gets a weaker bullet |
| Orbit.WidenRadar | MechuEY.java:56-61 | the widened radar turn keeps the sign of the turn, is never 0, and is larger in magnitude by RADAR_TURN_RATE_RADIANS / 2.5 |
| Orbit.DistanceBias | MechuEY.java:90-96 | the bias is 0 unless the robot is interior; when interior, the bias times (400 - keepDistance) is distance - keepDistance |
| Orbit.DistanceBiasSign | MechuEY.java:93 | an interior bias is positive, zero or negative as the enemy is farther than, at, or nearer than keepDistance, and reaches 1 exactly from distance 400 on |
| Orbit.Lean | MechuEY.java:101 | the clamp lies in [-1, 1], is the identity inside it, and saturates outside it |
| Orbit.OrbitTurn | MechuEY.java:100-101 | the turn lies between 45 and 135 degrees away from the enemy, is exactly 90 degrees away for a zero bias, and leans towards the side the bias and direction select |
| Orbit.Ahead | MechuEY.java:120 | the move has the sign of the direction for a positive multiplier, is ±20 for the default multiplier, and stays within ±40 for multipliers in [0, 2) |
| Adaptive.StartIsValid | MechuEY.java:15-20 | the initial state has direction 1 and keepDistance in [50, 250] |
| Adaptive.BiasDivisorIsPositive | MechuEY.java:93 | in every valid state the divisor 400 - keepDistance is at least 150 |
| Adaptive.ClampKeepDistance | MechuEY.java:130 | the clamp lies in [50, 400], is the identity inside it, and saturates outside it |
| Adaptive.BulletMissed | MechuEY.java:124-131 | after a miss keepDistance lies in [50, 400], never rises for a nonnegative draw, and drops by exactly the draw when that stays above the floor; nothing else changes |
| Adaptive.BulletHitBullet | MechuEY.java:134-138 | direction is negated when the coin says so; otherwise the state is unchanged |
| Adaptive.BulletHit | MechuEY.java:141-143 | eEnergy becomes the reported energy and nothing else changes |
| Adaptive.ScannedRobot | MechuEY.java:103-116 | eEnergy becomes the scanned energy in both branches, keepDistance is unchanged, and direction is the swept direction, negated only if the enemy's energy dropped and the coin says so |
| Adaptive.ScanFlipsOnlyWhenEnemyFired | MechuEY.java:109-116 | a scan changes the direction beyond the wall sweep only when the stored energy was strictly greater than the scanned energy |
| Adaptive.Apply | MechuEY.java:109-143 | one event: only a miss changes keepDistance, only a hit or a scan changes the recorded enemy energy, only a bullet-hit-bullet or a scan changes direction |
| Adaptive.Replay | MechuEY.java:124-143 | handling events in order: no events leave the state unchanged, and without a miss keepDistance never changes |
| Adaptive.ApplyKeepsValid | MechuEY.java:124-143 | each handler keeps direction in {1, -1} and keepDistance in [50, 250], and a miss lowers keepDistance by at least 25 or reaches 50 |
| Adaptive.ReplayKeepsValid | MechuEY.java:15-16 | from a valid state any sequence of events keeps the invariant, and keepDistance drops by at least 25 per miss until it reaches 50 |
| Adaptive.EightMissesReachFloor | MechuEY.java:126-130 | eight misses, interleaved with any other events, bring keepDistance to 50 |
| Robot.MechuEY.constructor | MechuEY.java:15-25 | the first round starts from direction 1, keepDistance 250 and eEnergy 100, with the field size read from the host |
| Robot.MechuEY.StartRound | MechuEY.java:15-25 | a later round resets eEnergy and the field size, while the static direction and keepDistance carry over |
| Robot.MechuEY.OnBulletMissed | MechuEY.java:124-131 | the handler performs BulletMissed with the draw roll + 25: keepDistance becomes max(50, keepDistance - draw), so it drops or sits at 50 |
| Robot.MechuEY.OnBulletHitBullet | MechuEY.java:134-138 | the handler performs BulletHitBullet: direction is kept or negated |
| Robot.MechuEY.OnBulletHit | MechuEY.java:141-143 | the handler performs BulletHit |
| Robot.MechuEY.CarryOut | MechuEY.java:159-169 | carrying out one wall's reaction on the fields agrees with WallAvoidance.Respond and, given an orbit direction to force, keeps the class invariant |
| Robot.MechuEY.WallTurnSmoothing | MechuEY.java:150-240 | the method's direction and returned turn are those of SweepWalls and SmoothedTurn; outside every margin both are unchanged |
| Robot.MechuEY.WallSpeedSmoothing | MechuEY.java:243-325 | the method returns SpeedFactor, which is 1 outside every margin; it changes no field |
| Robot.MechuEY.TopSpeedBlock | MechuEY.java:248-265 | the top block sets the source's formula exactly when the top wall damps, and otherwise keeps the incoming multiplier |
| Robot.MechuEY.BottomSpeedBlock | MechuEY.java:268-283 | the bottom block sets the source's formula exactly when the bottom wall damps, and otherwise keeps the incoming multiplier |
| Robot.MechuEY.LeftSpeedBlock | MechuEY.java:286-301 | the left block sets the source's formula exactly when the left wall damps, and otherwise keeps the incoming multiplier |
| Robot.MechuEY.RightSpeedBlock | MechuEY.java:304-321 | the right block sets the source's formula exactly when the right wall damps, and otherwise keeps the incoming multiplier |
| Robot.MechuEY.OnScannedRobot | MechuEY.java:40-121 | the state becomes Adaptive.ScannedRobot, and the commands issued are the widened radar turn, the gun turn, the bullet power, the smoothed orbit turn, and the damped move in the final direction |
| Robot.TopFormula | MechuEY.java:252-262 | the top formula 2 - (y - (H - 200)) / 200 times the heading fraction equals Damping(Top) |
| Robot.BottomFormula | MechuEY.java:272-280 | the bottom formula equals Damping(Bottom) |
| Robot.LeftFormula | MechuEY.java:290-298 | the left formula equals Damping(Left) |
| Robot.RightFormula | MechuEY.java:308-318 | the right formula equals Damping(Right) |

## Left out

- The host API and the main loop of `run` (MechuEY.java:22-37): the getters
  are parameters, the set commands are returned as `Commands`, and
  `setColors`, `setAdjust*` and `execute` are not modelled.
- Floating-point trigonometry is supplied by the host as parameters (`Aim`,
  `EscapeTurns`). This covers the enemy position (MechuEY.java:49-50),
  `normalRelativeAngle` of the radar and gun turns and of the relative
  bearing to the enemy (MechuEY.java:53, 76-77, 100), `atan2` (MechuEY.java:87, 159-229), and the lead angle with
  `asin` and `Rules.getBulletSpeed` (MechuEY.java:72-74). When the lead
  angle makes `asin` return NaN, that NaN is not modelled.
- The escape turns are host values about which nothing is assumed; in
  particular each may be 0, as it is when the heading already points along
  that diagonal.
- Doubles are modelled as exact reals. Rounding, NaN and infinities are not
  modelled.
- `keepDistance` is a double in the source and an `int` here. It starts at
  250 and changes only by integer draws and integer clamp bounds, so it
  always holds an integer.
- Randomness is passed in as parameters. `r.nextInt(50)` is an integer roll
  in [0, 50). Each `Math.random() < .6` is a boolean flag. The probability
  0.6 is not modelled.
- The host's handling of the commands is not modelled: fire power outside
  [0.1, 3], turn and speed rate limits, and the radar sweep.
- Robocode runs the handlers one at a time, so concurrency does not arise.
