/**
 * Scoring (`updateScore` and the medal choice of `onGameOver` in game.js):
 * the circular pointer to the pipe pair the bird has yet to pass, and the
 * medal thresholds.
 */
module Scoring {
  import opened Basics

  /**
   * The medal for a final score: 0 from 40 points, 1 from 30, 2 from 20,
   * 3 from 10, and none below 10.
   */
  function MedalFor(score: int): (m: Option<nat>)
    ensures m.None? <==> score < 10
    ensures m.Some? ==> m.value <= 3 && score >= 10 * (4 - m.value)
    ensures m.Some? && m.value > 0 ==> score < 10 * (5 - m.value)
  {
    if score >= 40 then Some(0)
    else if score >= 30 then Some(1)
    else if score >= 20 then Some(2)
    else if score >= 10 then Some(3)
    else None
  }

  /** A medal's rank: 3 for medal 0 (the best) down to 0 for medal 3, and -1 for none. */
  function Rank(m: Option<nat>): int {
    match m
    case None => -1
    case Some(id) => 3 - id
  }

  /** A higher score never earns a lesser medal. */
  lemma {:induction false} MedalMonotone(a: int, b: int)
    requires a <= b
    ensures Rank(MedalFor(a)) <= Rank(MedalFor(b))
  {
    var ma, mb := MedalFor(a), MedalFor(b);
    if ma.Some? && mb.Some? {
      assert 10 * (4 - mb.value) <= b;
      assert a < 10 * (5 - ma.value) || ma.value == 0;
    }
  }

  /** The medal is exactly the number of full tens, capped at 4, counted down from 4. */
  lemma MedalTens(score: nat)
    requires score >= 10
    ensures MedalFor(score) == Some(4 - (if score / 10 >= 4 then 4 else score / 10))
  {
  }

  /** `pipePairAheadId` after a pass: the next slot, back to 0 after the last one. */
  function NextAhead(a: nat, n: nat): (b: nat)
    requires a < n
    ensures b < n
    ensures b == (a + 1) % n
  {
    if a + 1 == n then
      assert (a + 1) % n == 0 by { assert (a + 1) == 1 * n; }
      0
    else
      assert (a + 1) % n == a + 1 by { assert a + 1 == 0 * n + (a + 1); }
      a + 1
  }

  /**
   * After `k` passes from slot `a`, the pointer is `(a + k) % n`: it walks
   * the ring of pairs once every `n` passes.
   */
  function AheadAfter(a: nat, n: nat, k: nat): (b: nat)
    requires a < n
    ensures b < n
  {
    if k == 0 then a else NextAhead(AheadAfter(a, n, k - 1), n)
  }

  lemma {:induction false} AheadAfterMod(a: nat, n: nat, k: nat)
    requires a < n
    ensures AheadAfter(a, n, k) == (a + k) % n
  {
    if k > 0 {
      AheadAfterMod(a, n, k - 1);
      ModSucc(a + k - 1, n);
    }
  }

  lemma ModSucc(x: nat, n: nat)
    requires n > 0
    ensures (x % n + 1) % n == (x + 1) % n
  {
    var q, r := x / n, x % n;
    if r + 1 < n {
      ModUnique(x + 1, n, q, r + 1);
      ModUnique(r + 1, n, 0, r + 1);
    } else {
      ModUnique(x + 1, n, q + 1, 0);
      ModUnique(r + 1, n, 1, 0);
    }
  }

  lemma ModUnique(y: int, n: int, q: int, r: int)
    requires n > 0 && y == q * n + r && 0 <= r < n
    ensures y % n == r
  {
    var q', r' := y / n, y % n;
    var d := q - q';
    assert d * n == r' - r by {
      assert q * n + r == q' * n + r';
      Distribute(q, q', n);
    }
    if d >= 1 {
      AtLeastOnce(d, n);
    } else if d <= -1 {
      AtLeastOnce(-d, n);
    }
  }

  lemma Distribute(a: int, b: int, n: int)
    ensures (a - b) * n == a * n - b * n
  {
  }

  lemma AtLeastOnce(d: int, n: int)
    requires d >= 1 && n > 0
    ensures d * n >= n && (-d) * n <= -n
  {
  }
}
