/**
 * The bird's motion and animation bookkeeping (`updateBirdie` and
 * `updateBirdieAngle` in game.js) as functions of the bird record, the
 * time step `dt` in seconds and the current time `t` in milliseconds.
 */
module Physics {
  import opened Basics
  import opened Entities

  /** The upward speed a flap gives (`FLAP_FORCE`). */
  const FLAP_FORCE: real := 350.0
  /** The angle the bird never tilts up beyond. */
  const MIN_ANGLE: real := -20.0
  /** The angle the bird never tilts down beyond. */
  const MAX_ANGLE: real := 90.0
  /** The number of wing sprites the frame index cycles through. */
  const FRAMES: nat := 3

  /**
   * `updateBirdieAngle`: nothing before the first change of direction; then
   * the angle eases against the vertical speed, twice as fast going up as
   * the speed is and half as fast coming down, clamped at -20 going up and
   * at 90 going down.
   */
  function AngleStep(b: Birdie, dt: real): (a: real)
    ensures b.lastDirectionChangeTime.None? ==> a == b.angle
    ensures b.lastDirectionChangeTime.Some? && b.direction >= 0 ==>
      a >= MIN_ANGLE && a >= b.angle - b.vy * 2.0 * dt && (a == MIN_ANGLE || a == b.angle - b.vy * 2.0 * dt)
    ensures b.lastDirectionChangeTime.Some? && b.direction < 0 ==>
      a <= MAX_ANGLE && a <= b.angle - b.vy / 2.0 * dt && (a == MAX_ANGLE || a == b.angle - b.vy / 2.0 * dt)
  {
    if b.lastDirectionChangeTime.None? then b.angle
    else if b.direction >= 0 then
      var a := b.angle - b.vy * 2.0 * dt;
      if a < MIN_ANGLE then MIN_ANGLE else a
    else
      var a := b.angle - b.vy / 2.0 * dt;
      if a > MAX_ANGLE then MAX_ANGLE else a
  }

  /** The angle lies in the range the clamps allow. */
  predicate AngleInRange(b: Birdie) {
    MIN_ANGLE <= b.angle <= MAX_ANGLE
  }

  /**
   * The motion part of `updateBirdie`, run when the state is past START: a
   * flap sets the vertical speed to `FLAP_FORCE` and the direction to 1,
   * otherwise gravity `g` slows the bird and the direction follows the sign
   * of the speed; a change of direction is timestamped; the bird moves and
   * is held above `floorY`; then the angle is updated.
   */
  function Motion(b: Birdie, flap: bool, g: real, dt: real, t: int, floorY: real): (r: Birdie)
    ensures flap ==> r.vy == FLAP_FORCE && r.direction == 1
    ensures !flap ==> r.vy == b.vy - g * dt && r.direction == Sign(r.vy)
    ensures r.lastDirectionChangeTime == if r.direction != b.direction then Some(t) else b.lastDirectionChangeTime
    ensures r.y <= floorY && r.y <= b.y - r.vy * dt && (r.y == floorY || r.y == b.y - r.vy * dt)
    ensures r.angle == AngleStep(r.(angle := b.angle), dt)
    ensures r.(vy := b.vy, direction := b.direction, lastDirectionChangeTime := b.lastDirectionChangeTime,
               y := b.y, angle := b.angle) == b
  {
    var vy := if flap then FLAP_FORCE else b.vy - g * dt;
    var direction := if flap then 1 else Sign(vy);
    var changed := if direction != b.direction then Some(t) else b.lastDirectionChangeTime;
    var y := b.y - vy * dt;
    var y' := if floorY < y then floorY else y;
    var moved := b.(vy := vy, direction := direction, lastDirectionChangeTime := changed, y := y');
    moved.(angle := AngleStep(moved, dt))
  }

  /**
   * The frame part of `updateBirdie`: the wings are frozen on frame 1 in
   * GAMEOVER; otherwise the first call starts the clock on frame 0, and a
   * later call more than `frameTime` milliseconds after the last change
   * moves to the next of the three frames.
   */
  function Flutter(b: Birdie, gameOver: bool, t: int): (r: Birdie)
    ensures gameOver ==> r == b.(frame := 1)
    ensures !gameOver && b.lastFrameTime.None? ==> r == b.(frame := 0, lastFrameTime := Some(t))
    ensures !gameOver && b.lastFrameTime.Some? && t - b.lastFrameTime.value > b.frameTime ==>
      b.frame < FRAMES ==> r == b.(frame := (b.frame + 1) % FRAMES, lastFrameTime := Some(t))
    ensures !gameOver && b.lastFrameTime.Some? && t - b.lastFrameTime.value <= b.frameTime ==> r == b
  {
    if gameOver then b.(frame := 1)
    else if b.lastFrameTime.None? then b.(frame := 0, lastFrameTime := Some(t))
    else if t - b.lastFrameTime.value > b.frameTime then
      var f := b.frame + 1;
      b.(frame := if f == FRAMES then 0 else f, lastFrameTime := Some(t))
    else b
  }

  /** `updateBirdie` in state `s`: motion only past START, then the frame. */
  function BirdieStep(b: Birdie, s: State, flap: bool, g: real, dt: real, t: int, floorY: real): (r: Birdie)
  {
    var moved := if s.Ord() > Start.Ord() then Motion(b, flap, g, dt, t, floorY) else b;
    Flutter(moved, s == GameOver, t)
  }

  /**
   * Up to START the bird does not move: only its frame may change.  Past
   * START it never ends below `floorY`.
   */
  lemma BirdieStepMotion(b: Birdie, s: State, flap: bool, g: real, dt: real, t: int, floorY: real)
    ensures var r := BirdieStep(b, s, flap, g, dt, t, floorY);
      (s.Ord() <= Start.Ord() ==> r.(frame := b.frame, lastFrameTime := b.lastFrameTime) == b) &&
      (s.Ord() > Start.Ord() ==> r.y <= floorY)
  {
  }

  /** The frame index stays a valid index of the three wing sprites, and is 1 in GAMEOVER. */
  lemma BirdieStepFrame(b: Birdie, s: State, flap: bool, g: real, dt: real, t: int, floorY: real)
    requires b.frame < FRAMES
    ensures BirdieStep(b, s, flap, g, dt, t, floorY).frame < FRAMES
    ensures s == GameOver ==> BirdieStep(b, s, flap, g, dt, t, floorY).frame == 1
  {
  }

  /**
   * The bird's tilt stays between -20 and 90 degrees when time does not run
   * backwards: going up (a non-negative direction, which `Motion` only sets
   * with a non-negative speed) the angle can only decrease, and the clamp
   * keeps it at -20 or above; coming down it can only increase, and the
   * clamp keeps it at 90 or below.
   */
  lemma {:induction false} BirdieStepAngle(b: Birdie, s: State, flap: bool, g: real, dt: real, t: int, floorY: real)
    requires AngleInRange(b) && dt >= 0.0
    ensures AngleInRange(BirdieStep(b, s, flap, g, dt, t, floorY))
  {
    if s.Ord() > Start.Ord() {
      var r := Motion(b, flap, g, dt, t, floorY);
      var m := r.(angle := b.angle);
      if m.lastDirectionChangeTime.Some? {
        if m.direction >= 0 {
          assert m.vy >= 0.0;
          assert m.vy * 2.0 * dt >= 0.0 by { MulNonneg(m.vy * 2.0, dt); }
        } else {
          assert m.vy < 0.0;
          assert -(m.vy / 2.0) * dt >= 0.0 by { MulNonneg(-(m.vy / 2.0), dt); }
        }
      }
    }
  }
}
