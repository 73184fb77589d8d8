/**
 * The two rings of scrolling objects (`updateLand` and `updatePipePairs` in
 * game.js).  Both walk their array from left to right, rewriting one slot at
 * a time, and a slot that has left the screen is moved behind the others.
 * `LandStage` and `PipeStage` give the array after the first `n` slots have
 * been processed, so a full pass is the stage at the array's length.
 */
module Ring {
  import opened Basics
  import opened Entities

  /** The width of one land tile (`LAND_WIDTH`). */
  const LAND_WIDTH: real := 336.0
  /** Half the width of a pipe (`PIPE_WIDTH / 2`). */
  const PIPE_HALF_WIDTH: real := 26.0
  /** The horizontal distance between neighbouring pipe pairs (`PIPE_DISTANCE`). */
  const PIPE_DISTANCE: real := 176.0

  /**
   * One round of `updateLand` on slot `i`: a tile whose right edge was at
   * or left of 0 before this round moves to the current maximum plus the tile
   * width; then every tile scrolls left by `shift`.
   */
  function LandTile(xs: seq<real>, i: nat, shift: real): real
    requires i < |xs|
  {
    (if xs[i] + LAND_WIDTH <= 0.0 then SeqMax(xs) + LAND_WIDTH else xs[i]) - shift
  }

  /** The land tiles after the first `n` rounds of `updateLand`. */
  function LandStage(xs: seq<real>, shift: real, n: nat): (ys: seq<real>)
    requires n <= |xs|
    ensures |ys| == |xs|
    ensures forall j :: n <= j < |xs| ==> ys[j] == xs[j]
  {
    if n == 0 then xs
    else
      var prev := LandStage(xs, shift, n - 1);
      prev[n - 1 := LandTile(prev, n - 1, shift)]
  }

  /** `updateLand`: all tiles processed. */
  function ScrollLand(xs: seq<real>, shift: real): (ys: seq<real>)
  {
    LandStage(xs, shift, |xs|)
  }

  /** A round never revisits a slot it has already written. */
  lemma {:induction false} LandStageSettled(xs: seq<real>, shift: real, n: nat, j: nat)
    requires j < n <= |xs|
    ensures LandStage(xs, shift, n)[j] == LandStage(xs, shift, j + 1)[j]
  {
    if n > j + 1 {
      LandStageSettled(xs, shift, n - 1, j);
    }
  }

  /**
   * What `updateLand` does to each tile: a tile still (partly) on screen
   * only scrolls by `-shift`; a tile that was off screen is placed one tile
   * width behind the rightmost tile of the array as it stood when its turn
   * came (the tiles to its left already scrolled), then scrolls.
   */
  lemma ScrollLandSlot(xs: seq<real>, shift: real, j: nat)
    requires j < |xs|
    ensures |ScrollLand(xs, shift)| == |xs|
    ensures xs[j] + LAND_WIDTH > 0.0 ==> ScrollLand(xs, shift)[j] == xs[j] - shift
    ensures xs[j] + LAND_WIDTH <= 0.0 ==>
      var stage := LandStage(xs, shift, j);
      ScrollLand(xs, shift)[j] == SeqMax(stage) + LAND_WIDTH - shift &&
      forall k :: 0 <= k < |stage| ==> stage[k] + LAND_WIDTH <= ScrollLand(xs, shift)[j] + shift
  {
    LandStageSettled(xs, shift, |xs|, j);
  }

  /**
   * One round of `updatePipePairs` on slot `i`: the pair scrolls left by
   * `shift`; if its right edge is now at or left of 0 it is moved to its left
   * neighbour plus `PIPE_DISTANCE` (the neighbour of slot 0 is the last slot,
   * which itself when there is only one pair) with a new gap middle drawn
   * from `[minMid, maxMid]` with the random number `r`.
   */
  function PipeSlot(ps: seq<PipePair>, i: nat, shift: real, minMid: int, maxMid: int, r: real): (ys: seq<PipePair>)
    requires i < |ps| && 0.0 <= r < 1.0
    ensures |ys| == |ps| && forall j :: 0 <= j < |ps| && j != i ==> ys[j] == ps[j]
  {
    var scrolled := ps[i := ps[i].(x := ps[i].x - shift)];
    if scrolled[i].x + PIPE_HALF_WIDTH <= 0.0 then
      var neighbour := if i > 0 then i - 1 else |ps| - 1;
      scrolled[i := PipePair(scrolled[neighbour].x + PIPE_DISTANCE, UniformRandom(minMid, maxMid, r))]
    else scrolled
  }

  /** Every draw is a valid result of `Math.random()`. */
  predicate Unit(draws: seq<real>) {
    forall k :: 0 <= k < |draws| ==> 0.0 <= draws[k] < 1.0
  }

  /** The pipe pairs after the first `n` rounds of `updatePipePairs`; slot `i` uses `draws[i]` if it recycles. */
  function PipeStage(ps: seq<PipePair>, shift: real, minMid: int, maxMid: int, draws: seq<real>, n: nat): (ys: seq<PipePair>)
    requires n <= |ps| <= |draws| && Unit(draws)
    ensures |ys| == |ps|
    ensures forall j :: n <= j < |ps| ==> ys[j] == ps[j]
  {
    if n == 0 then ps
    else PipeSlot(PipeStage(ps, shift, minMid, maxMid, draws, n - 1), n - 1, shift, minMid, maxMid, draws[n - 1])
  }

  /** `updatePipePairs`: all pairs processed. */
  function ScrollPipes(ps: seq<PipePair>, shift: real, minMid: int, maxMid: int, draws: seq<real>): seq<PipePair>
    requires |ps| <= |draws| && Unit(draws)
  {
    PipeStage(ps, shift, minMid, maxMid, draws, |ps|)
  }

  lemma {:induction false} PipeStageSettled(ps: seq<PipePair>, shift: real, minMid: int, maxMid: int, draws: seq<real>, n: nat, j: nat)
    requires j < n <= |ps| <= |draws| && Unit(draws)
    ensures PipeStage(ps, shift, minMid, maxMid, draws, n)[j] == PipeStage(ps, shift, minMid, maxMid, draws, j + 1)[j]
  {
    if n > j + 1 {
      PipeStageSettled(ps, shift, minMid, maxMid, draws, n - 1, j);
    }
  }

  /**
   * What `updatePipePairs` does to each pair: a pair still on screen after
   * scrolling keeps its gap and only moves by `-shift`.  A pair that left the
   * screen gets a gap middle in `[minMid, maxMid]` (when that range is not
   * empty) and is placed `PIPE_DISTANCE` behind its left neighbour as that
   * neighbour ends up after this pass; slot 0 is placed behind the last slot
   * as it was before the pass, not yet scrolled.
   */
  lemma ScrollPipesSlot(ps: seq<PipePair>, shift: real, minMid: int, maxMid: int, draws: seq<real>, j: nat)
    requires j < |ps| <= |draws| && Unit(draws)
    ensures var ys := ScrollPipes(ps, shift, minMid, maxMid, draws);
      |ys| == |ps| &&
      (ps[j].x - shift + PIPE_HALF_WIDTH > 0.0 ==> ys[j] == PipePair(ps[j].x - shift, ps[j].my)) &&
      (ps[j].x - shift + PIPE_HALF_WIDTH <= 0.0 ==>
        ys[j].my == UniformRandom(minMid, maxMid, draws[j]) &&
        (minMid <= maxMid ==> minMid <= ys[j].my <= maxMid) &&
        (j > 0 ==> ys[j].x == ys[j - 1].x + PIPE_DISTANCE) &&
        (j == 0 && |ps| > 1 ==> ys[0].x == ps[|ps| - 1].x + PIPE_DISTANCE) &&
        (j == 0 && |ps| == 1 ==> ys[0].x == ps[0].x - shift + PIPE_DISTANCE))
  {
    PipeStageSettled(ps, shift, minMid, maxMid, draws, |ps|, j);
    if j > 0 {
      PipeStageSettled(ps, shift, minMid, maxMid, draws, |ps|, j - 1);
    }
  }
}
