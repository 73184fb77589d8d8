/**
 * Axis-aligned boxes and the collision test of game.js (`collide`), with the
 * boxes the game tests: the bird's forgiving bounding box
 * (`getBirdieBoundingBox`) and the two pipes of a pair (`getPipeData`).
 */
module Geometry {
  import opened Entities
  import opened Ring

  /** Half the height of the gap between the two pipes of a pair (`PIPE_GAP / 2`). */
  const PIPE_HALF_GAP: real := 49.0

  datatype Box = Box(x: real, y: real, width: real, height: real)

  /** `collide(a, b)`: the boxes overlap, touching edges included. */
  predicate Collide(a: Box, b: Box) {
    a.x <= b.x + b.width &&
    b.x <= a.x + a.width &&
    a.y <= b.y + b.height &&
    b.y <= a.y + a.height
  }

  /** The test does not depend on the order of its arguments. */
  lemma CollideSymmetric(a: Box, b: Box)
    ensures Collide(a, b) <==> Collide(b, a)
  {
  }

  /**
   * For boxes of non-negative size, `Collide` holds exactly when the closed
   * intervals overlap on both axes: some point belongs to both boxes.
   */
  lemma CollideIffCommonPoint(a: Box, b: Box)
    requires a.width >= 0.0 && a.height >= 0.0 && b.width >= 0.0 && b.height >= 0.0
    ensures Collide(a, b) <==>
      exists px: real, py: real ::
        Inside(a, px, py) && Inside(b, px, py)
  {
    if Collide(a, b) {
      var px := if a.x <= b.x then b.x else a.x;
      var py := if a.y <= b.y then b.y else a.y;
      assert Inside(a, px, py) && Inside(b, px, py);
    }
  }

  /** The point lies in the closed box. */
  predicate Inside(b: Box, px: real, py: real) {
    b.x <= px <= b.x + b.width && b.y <= py <= b.y + b.height
  }

  /** Boxes that only touch along an edge collide: the test is inclusive. */
  lemma CollideTouching(a: Box, b: Box)
    requires a.width >= 0.0 && a.height >= 0.0 && b.width >= 0.0 && b.height >= 0.0
    requires b.x == a.x + a.width && b.y == a.y
    ensures Collide(a, b)
  {
  }

  /** `getBirdieBoundingBox`: the sprite box trimmed by 4 on the left and 6 on the right. */
  function BirdieBoundingBox(b: Birdie): (box: Box)
    ensures box.y == b.y && box.height == b.height
    ensures box.x == b.x + 4.0 && box.x + box.width == b.x + b.width - 6.0
  {
    Box(b.x + 4.0, b.y, b.width - 10.0, b.height)
  }

  /** The two boxes of a pipe pair. */
  datatype PipeBoxes = PipeBoxes(down: Box, up: Box)

  /**
   * `getPipeData`: the downward pipe ends half a gap above the middle `my`,
   * the upward pipe starts half a gap below it, and both boxes start
   * `PIPE_HALF_WIDTH` left of `x`, each with its own sprite's size.
   */
  function PipeData(p: PipePair, s: Sprites): (d: PipeBoxes)
    ensures d.down.x == d.up.x == p.x - PIPE_HALF_WIDTH
    ensures d.down.y + d.down.height == p.my as real - PIPE_HALF_GAP
    ensures d.up.y == p.my as real + PIPE_HALF_GAP
    ensures d.down.width == s.pipeDownWidth && d.down.height == s.pipeDownHeight
    ensures d.up.width == s.pipeUpWidth && d.up.height == s.pipeUpHeight
  {
    PipeBoxes(
      Box(p.x - PIPE_HALF_WIDTH, p.my as real - s.pipeDownHeight - PIPE_HALF_GAP, s.pipeDownWidth, s.pipeDownHeight),
      Box(p.x - PIPE_HALF_WIDTH, p.my as real + PIPE_HALF_GAP, s.pipeUpWidth, s.pipeUpHeight))
  }

  /**
   * A box that stays strictly inside the gap of a pair, vertically, touches
   * neither pipe: the gap is `2 * PIPE_HALF_GAP` high around `my`.
   */
  lemma InsideGapMisses(box: Box, p: PipePair, s: Sprites)
    requires box.height >= 0.0 && s.pipeDownHeight >= 0.0
    requires p.my as real - PIPE_HALF_GAP < box.y
    requires box.y + box.height < p.my as real + PIPE_HALF_GAP
    ensures !Collide(box, PipeData(p, s).down) && !Collide(box, PipeData(p, s).up)
  {
  }

  /** The bird hits the land or one of the pipes of a pair. */
  predicate HitsPair(box: Box, p: PipePair, s: Sprites) {
    Collide(box, PipeData(p, s).down) || Collide(box, PipeData(p, s).up)
  }

  /** The play-button hit test of `onUIEvent`, inclusive on all four edges. */
  predicate ButtonHit(b: PlayButton, s: Sprites, px: real, py: real) {
    b.x <= px <= b.x + s.buttonWidth && b.y <= py <= b.y + s.buttonHeight
  }
}
