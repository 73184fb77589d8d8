/**
 * Small numeric helpers used throughout the game: the optional value of a
 * field that JavaScript leaves `null`, `sign`, `uniformRandom` with the
 * random number made an explicit argument, `Math.ceil` and `Math.max`.
 */
module Basics {

  /** A value that may be absent (JavaScript `null`). */
  datatype Option<+T> = None | Some(value: T) {
    function GetOr(default: T): T {
      match this
      case Some(v) => v
      case None => default
    }
  }

  /** `sign(n)`: -1, 0 or 1 according to the sign of `n`. */
  function Sign(n: real): (s: int)
    ensures s == -1 || s == 0 || s == 1
    ensures s > 0 <==> n > 0.0
    ensures s < 0 <==> n < 0.0
  {
    if n < 0.0 then -1 else if n > 0.0 then 1 else 0
  }

  /** JavaScript `Math.ceil` on a real. */
  function Ceil(x: real): (c: int)
    ensures x <= c as real < x + 1.0
  {
    -((-x).Floor)
  }

  /**
   * `uniformRandom(min, max)` = `floor(r * (max - min + 1)) + min`, where
   * `r` is the value `Math.random()` returned, in [0, 1).  When the bounds
   * are in order the result lies between them, both included.
   */
  function UniformRandom(min: int, max: int, r: real): (n: int)
    requires 0.0 <= r < 1.0
    ensures min <= max ==> min <= n <= max
  {
    var span := (max - min + 1) as real;
    ScaleBelow(r, span);
    (r * span).Floor + min
  }

  lemma ScaleBelow(r: real, k: real)
    requires 0.0 <= r < 1.0
    ensures k > 0.0 ==> 0.0 <= r * k < k
  {
    assert k - r * k == (1.0 - r) * k;
  }

  /**
   * Every integer between the bounds can be drawn: with
   * `r = (v - min) / (max - min + 1)` the draw yields `v`.
   */
  lemma UniformRandomReaches(min: int, max: int, v: int)
    requires min <= v <= max
    ensures var r := (v - min) as real / (max - min + 1) as real;
            0.0 <= r < 1.0 && UniformRandom(min, max, r) == v
  {
    var span := (max - min + 1) as real;
    var r := (v - min) as real / span;
    assert r * span == (v - min) as real;
    assert r < 1.0 by {
      assert (v - min) as real < span;
    }
  }

  lemma MulNonneg(x: real, y: real)
    requires x >= 0.0 && y >= 0.0
    ensures x * y >= 0.0
  {
  }

  /** `Math.max.apply(Math, s)`: the largest element of a non-empty sequence. */
  function SeqMax(s: seq<real>): (m: real)
    requires |s| > 0
    ensures m in s
    ensures forall i :: 0 <= i < |s| ==> s[i] <= m
  {
    if |s| == 1 then s[0]
    else
      var rest := SeqMax(s[1..]);
      assert forall i :: 1 <= i < |s| ==> s[i] == s[1..][i - 1];
      if s[0] >= rest then s[0] else rest
  }
}
