/**
  The adaptive state of MechuEY as a value: the orbit direction, the
  stand-off distance keepDistance and the enemy energy last seen, with one
  transition per event handler and a fold over any sequence of events.
  The random draws are parameters: the integer r.nextInt(50) + 25 of
  onBulletMissed, and the outcome of Math.random() < .6 as a flag.
*/
module Adaptive {
  import opened Geometry
  import opened WallAvoidance
  import Orbit

  const START_DIRECTION: int := 1
  const START_KEEP_DISTANCE: int := 250
  const START_ENEMY_ENERGY: real := 100.0

  /** The clamp bounds of keepDistance. */
  const MIN_KEEP_DISTANCE: int := 50
  const MAX_KEEP_DISTANCE: int := 400

  /** onBulletMissed draws from [MIN_DRAW, MAX_DRAW). */
  const MIN_DRAW: int := 25
  const MAX_DRAW: int := 75

  datatype State = State(direction: int, keepDistance: int, enemyEnergy: real)

  function Start(): State {
    State(START_DIRECTION, START_KEEP_DISTANCE, START_ENEMY_ENERGY)
  }

  /** The invariant every handler keeps: a proper orbit direction and a
      stand-off distance between the lower clamp bound and its start value. */
  predicate Valid(s: State) {
    && (s.direction == 1 || s.direction == -1)
    && MIN_KEEP_DISTANCE <= s.keepDistance <= START_KEEP_DISTANCE
  }

  lemma StartIsValid()
    ensures Valid(Start())
  {
  }

  /** The divisor 400 - keepDistance of the distance bias is at least 150. */
  lemma BiasDivisorIsPositive(s: State)
    requires Valid(s)
    ensures Orbit.FULL_LEAN_DISTANCE - s.keepDistance as real >= 150.0
  {
  }

  /** Math.min(Math.max(50, k), 400). */
  function ClampKeepDistance(k: int): (r: int)
    ensures MIN_KEEP_DISTANCE <= r <= MAX_KEEP_DISTANCE
    ensures MIN_KEEP_DISTANCE <= k <= MAX_KEEP_DISTANCE ==> r == k
    ensures k < MIN_KEEP_DISTANCE ==> r == MIN_KEEP_DISTANCE
    ensures k > MAX_KEEP_DISTANCE ==> r == MAX_KEEP_DISTANCE
  {
    var floored := if MIN_KEEP_DISTANCE >= k then MIN_KEEP_DISTANCE else k;
    if floored <= MAX_KEEP_DISTANCE then floored else MAX_KEEP_DISTANCE
  }

  /** onBulletMissed: subtract the draw, then clamp. */
  function BulletMissed(s: State, draw: int): (t: State)
    ensures MIN_KEEP_DISTANCE <= t.keepDistance <= MAX_KEEP_DISTANCE
    ensures draw >= 0 && s.keepDistance >= MIN_KEEP_DISTANCE ==> t.keepDistance <= s.keepDistance
    ensures draw >= 0 && s.keepDistance - draw >= MIN_KEEP_DISTANCE && s.keepDistance <= MAX_KEEP_DISTANCE
            ==> t.keepDistance == s.keepDistance - draw
    ensures t.direction == s.direction && t.enemyEnergy == s.enemyEnergy
  {
    s.(keepDistance := ClampKeepDistance(s.keepDistance - draw))
  }

  /** onBulletHitBullet: the orbit direction flips when the coin says so. */
  function BulletHitBullet(s: State, flip: bool): (t: State)
    ensures t.keepDistance == s.keepDistance && t.enemyEnergy == s.enemyEnergy
    ensures flip ==> t.direction == -s.direction
    ensures !flip ==> t == s
  {
    if flip then s.(direction := s.direction * -1) else s
  }

  /** onBulletHit: remember the enemy's energy after the hit. */
  function BulletHit(s: State, energy: real): (t: State)
    ensures t.enemyEnergy == energy
    ensures t.direction == s.direction && t.keepDistance == s.keepDistance
  {
    s.(enemyEnergy := energy)
  }

  /** The state changes of onScannedRobot: wallTurnSmoothing may force the
      direction, then a drop in the enemy's energy (it fired) flips it when
      the coin says so, and the scanned energy is recorded either way. */
  function ScannedRobot(s: State, energy: real, flip: bool, p: Pose, f: Field, e: EscapeTurns): (t: State)
    ensures t.enemyEnergy == energy
    ensures t.keepDistance == s.keepDistance
    ensures var swept := SweepWalls(s.direction, p, f, e).direction;
            t.direction == (if s.enemyEnergy > energy && flip then -swept else swept)
  {
    var swept := SweepWalls(s.direction, p, f, e).direction;
    if s.enemyEnergy > energy then
      State(if flip then swept * -1 else swept, s.keepDistance, energy)
    else
      State(swept, s.keepDistance, energy)
  }

  /** A scan changes the direction beyond the wall sweep only if the
      enemy's energy dropped. */
  lemma ScanFlipsOnlyWhenEnemyFired(s: State, energy: real, flip: bool, p: Pose, f: Field, e: EscapeTurns)
    requires ScannedRobot(s, energy, flip, p, f, e).direction != SweepWalls(s.direction, p, f, e).direction
    ensures s.enemyEnergy > energy && flip
  {
  }

  /** The events the robot reacts to, with the random outcomes they use. */
  datatype Event =
    | Missed(draw: int)
    | HitBullet(flip: bool)
    | Hit(energy: real)
    | Scanned(energy: real, flip: bool, pose: Pose, field: Field, escapes: EscapeTurns)

  /** One event: only a miss changes keepDistance, only a hit or a scan
      changes the recorded enemy energy, and a miss leaves direction alone. */
  function Apply(s: State, ev: Event): (t: State)
    ensures t.keepDistance != s.keepDistance ==> ev.Missed?
    ensures t.enemyEnergy != s.enemyEnergy ==> ev.Hit? || ev.Scanned?
    ensures t.direction != s.direction ==> ev.HitBullet? || ev.Scanned?
  {
    match ev
    case Missed(draw) => BulletMissed(s, draw)
    case HitBullet(flip) => BulletHitBullet(s, flip)
    case Hit(energy) => BulletHit(s, energy)
    case Scanned(energy, flip, pose, field, escapes) => ScannedRobot(s, energy, flip, pose, field, escapes)
  }

  /** The state after handling the events in order. Without a missed
      bullet keepDistance never changes. */
  function Replay(s: State, events: seq<Event>): (t: State)
    ensures events == [] ==> t == s
    ensures Misses(events) == 0 ==> t.keepDistance == s.keepDistance
    decreases |events|
  {
    if events == [] then s else Replay(Apply(s, events[0]), events[1..])
  }

  /** How many of the events are missed bullets. */
  function Misses(events: seq<Event>): nat
    decreases |events|
  {
    if events == [] then 0
    else (if events[0].Missed? then 1 else 0) + Misses(events[1..])
  }

  /** Every draw lies in the range r.nextInt(50) + 25 can produce. */
  predicate DrawsInRange(events: seq<Event>) {
    forall ev | ev in events :: ev.Missed? ==> MIN_DRAW <= ev.draw < MAX_DRAW
  }

  function Max(a: int, b: int): int {
    if a >= b then a else b
  }

  /** One event keeps the invariant, and a miss lowers the stand-off
      distance by at least MIN_DRAW unless it hits the floor. */
  lemma ApplyKeepsValid(s: State, ev: Event)
    requires Valid(s)
    requires ev.Missed? ==> MIN_DRAW <= ev.draw < MAX_DRAW
    ensures Valid(Apply(s, ev))
    ensures Apply(s, ev).keepDistance
            <= Max(MIN_KEEP_DISTANCE, s.keepDistance - (if ev.Missed? then MIN_DRAW else 0))
  {
  }

  /** From a valid state, any sequence of events keeps the invariant: the
      direction stays 1 or -1 and keepDistance stays in [50, 250]; moreover
      each miss brings keepDistance at least MIN_DRAW closer to the floor. */
  lemma {:induction false} ReplayKeepsValid(s: State, events: seq<Event>)
    requires Valid(s) && DrawsInRange(events)
    ensures Valid(Replay(s, events))
    ensures Replay(s, events).keepDistance
            <= Max(MIN_KEEP_DISTANCE, s.keepDistance - MIN_DRAW * Misses(events))
    decreases |events|
  {
    if events != [] {
      var t := Apply(s, events[0]);
      assert events[0] in events;
      ApplyKeepsValid(s, events[0]);
      assert DrawsInRange(events[1..]) by {
        forall ev | ev in events[1..] ensures ev in events { }
      }
      ReplayKeepsValid(t, events[1..]);
    }
  }

  /** Eight misses, however they are interleaved with other events, bring
      keepDistance from any valid state down to the floor of 50. */
  lemma EightMissesReachFloor(s: State, events: seq<Event>)
    requires Valid(s) && DrawsInRange(events)
    requires Misses(events) >= 8
    ensures Replay(s, events).keepDistance == MIN_KEEP_DISTANCE
  {
    ReplayKeepsValid(s, events);
  }
}
