/**
 * The tween engine (`Animation` in game.js): time-driven interpolation of
 * named numbers from a `from` map to a `to` map, with a start delay, a
 * number of iterations folded back and forth (ping-pong), and a "sticks"
 * policy deciding what happens after the last iteration.
 *
 * Callbacks are labels of type `E`.  Instead of calling a callback, an
 * operation returns the list of calls it made, in order, each with the
 * snapshot of current values the callback would have received; the owner
 * of the tween interprets the labels.  The current time is an argument
 * (integer milliseconds) instead of a clock read.
 *
 * The pure functions `StartSpec`, `StopSpec` and `Advance` define what one
 * call of `start`, `stop` and `update` does to a tween's runtime state; the
 * classes `Tween` and `Registry` are the imperative engine, proved to follow
 * them.
 */
module Tween {
  import opened Basics

  /** How many iterations a tween plays: a positive count or `Infinity`. */
  datatype Iterations = Finite(count: nat) | Infinite

  /** The `options` object given to `new Animation(options)`, optional members absent as `None`. */
  datatype Options<E> = Options(
    from: map<string, real>,
    to: map<string, real>,
    duration: int,
    onUpdate: E,
    iterations: Option<Iterations>,
    delay: Option<nat>,
    sticks: Option<bool>,
    onAnimationStart: Option<E>,
    onAnimationEnd: Option<E>)

  /** A tween's configuration once the defaults are applied. */
  datatype Config<E> = Config(
    from: map<string, real>,
    to: map<string, real>,
    duration: int,
    onUpdate: E,
    iterations: Iterations,
    delay: nat,
    sticks: bool,
    onStart: Option<E>,
    onEnd: Option<E>)
  {
    /** What `update` relies on: a positive duration and a target for every animated key. */
    predicate WellFormed() {
      duration > 0 && from.Keys <= to.Keys
    }
  }

  /**
   * The defaults of the constructor: `iterations || 1` (so both a missing
   * and a zero count become 1), `delay || 0`, and `sticks` true unless it
   * is given.
   */
  function Configure<E>(o: Options<E>): (c: Config<E>)
    ensures c.from == o.from && c.to == o.to && c.duration == o.duration
    ensures c.onUpdate == o.onUpdate && c.onStart == o.onAnimationStart && c.onEnd == o.onAnimationEnd
    ensures c.iterations != Finite(0)
    ensures o.iterations.Some? && o.iterations.value != Finite(0) ==> c.iterations == o.iterations.value
    ensures o.iterations.None? ==> c.iterations == Finite(1)
    ensures o.delay.None? ==> c.delay == 0
    ensures o.delay.Some? ==> c.delay == o.delay.value
    ensures c.sticks <==> o.sticks != Some(false)
  {
    var iterations :=
      match o.iterations
      case Some(Finite(n)) => if n == 0 then Finite(1) else Finite(n)
      case Some(Infinite) => Infinite
      case None => Finite(1);
    var sticks := match o.sticks case Some(b) => b case None => true;
    Config(o.from, o.to, o.duration, o.onUpdate, iterations, o.delay.GetOr(0), sticks,
           o.onAnimationStart, o.onAnimationEnd)
  }

  /** The mutable fields of an `Animation` object. */
  datatype Runtime = Runtime(
    startTime: Option<int>,
    isRunning: bool,
    isWaitingForDelay: bool,
    values: map<string, real>,
    startFired: bool)

  /** A freshly constructed tween: not running, no start time, no values. */
  const Detached := Runtime(None, false, false, map[], false)

  /** One callback invocation, with the snapshot of values it received. */
  datatype Call<E> = Call(callback: E, snapshot: map<string, real>)

  /** The new runtime state and the callbacks run, in order. */
  datatype Outcome<E> = Outcome(rt: Runtime, calls: seq<Call<E>>)

  /** Milliseconds since the start; a cleared start time counts as 0, as `now - null` does. */
  function Elapsed(r: Runtime, now: int): int {
    now - r.startTime.GetOr(0)
  }

  /**
   * The phase before the iteration limit is applied: `t / duration` up to
   * one duration, then the fractional part on even iterations and one minus
   * it on odd ones (a triangle wave).
   */
  function Folded(t: nat, duration: int): (p: real)
    requires duration > 0
    ensures 0.0 <= p <= 1.0
    ensures t <= duration ==> p == t as real / duration as real
  {
    var pct := t as real / duration as real;
    if t > duration then
      var k := pct.Floor;
      if k % 2 == 0 then pct - k as real else 1.0 - (pct - k as real)
    else
      assert pct <= 1.0 by { DivAtMostOne(t, duration); }
      pct
  }

  lemma DivAtMostOne(t: nat, d: int)
    requires 0 < d && t <= d
    ensures 0.0 <= t as real / d as real <= 1.0
  {
  }

  /** The limit of the iterations has been passed (`t > duration * iterations`). */
  predicate Ended<E>(c: Config<E>, t: int) {
    c.iterations.Finite? && t > c.duration * c.iterations.count
  }

  /** The phase used for interpolation: folded, or `iterations % 2` once ended. */
  function Phase<E>(c: Config<E>, t: nat): (p: real)
    requires c.WellFormed()
    ensures 0.0 <= p <= 1.0
    ensures Ended(c, t) ==> p == (c.iterations.count % 2) as real
    ensures !Ended(c, t) ==> p == Folded(t, c.duration)
  {
    if Ended(c, t) then (c.iterations.count % 2) as real else Folded(t, c.duration)
  }

  /** `min + pct * (max - min)` for every key of `from`. */
  function Interpolate(from: map<string, real>, to: map<string, real>, phase: real): (v: map<string, real>)
    requires from.Keys <= to.Keys
    ensures v.Keys == from.Keys
    ensures 0.0 <= phase <= 1.0 ==>
      forall k :: k in v ==> Between(from[k], to[k], v[k])
    ensures phase == 0.0 ==> v == from
    ensures phase == 1.0 ==> forall k :: k in v ==> v[k] == to[k]
  {
    var v := map k | k in from :: Lerp(from[k], to[k], phase);
    forall k | k in v && 0.0 <= phase <= 1.0
      ensures Between(from[k], to[k], v[k])
    {
      LerpBetween(from[k], to[k], phase);
    }
    v
  }

  /** `x` lies between `a` and `b`, in whichever order they come. */
  predicate Between(a: real, b: real, x: real) {
    (a <= x <= b) || (b <= x <= a)
  }

  /** `min + pct * (max - min)`. */
  function Lerp(a: real, b: real, p: real): real {
    a + p * (b - a)
  }

  lemma LerpBetween(a: real, b: real, p: real)
    requires 0.0 <= p <= 1.0
    ensures Between(a, b, Lerp(a, b, p))
  {
    if a <= b {
      LerpUp(a, b, p);
    } else {
      LerpUp(b, a, 1.0 - p);
      assert Lerp(a, b, p) == Lerp(b, a, 1.0 - p);
    }
  }

  lemma LerpUp(lo: real, hi: real, p: real)
    requires 0.0 <= p <= 1.0 && lo <= hi
    ensures lo <= Lerp(lo, hi, p) <= hi
  {
    var d := hi - lo;
    MulNonneg(p, d);
    MulNonneg(1.0 - p, d);
    assert (1.0 - p) * d == d - p * d;
  }

  /** The call of `onAnimationEnd`, when there is one. */
  function EndCalls<E>(c: Config<E>, values: map<string, real>): (calls: seq<Call<E>>)
    ensures calls != [] <==> c.onEnd.Some?
    ensures calls != [] ==> calls == [Call(c.onEnd.value, values)]
  {
    if c.onEnd.Some? then [Call(c.onEnd.value, values)] else []
  }

  /**
   * `start()`: nothing while running; otherwise the start callback fires at
   * once when there is no delay, and the tween runs from `now`.
   */
  function StartSpec<E>(c: Config<E>, r: Runtime, now: int): (o: Outcome<E>)
    ensures r.isRunning ==> o == Outcome(r, [])
    ensures !r.isRunning ==> o.rt.isRunning && o.rt.startTime == Some(now) && o.rt.values == r.values
    ensures !r.isRunning ==> (o.rt.startFired <==> c.onStart.Some? && c.delay == 0)
    ensures !r.isRunning ==> o.calls == if o.rt.startFired then [Call(c.onStart.value, r.values)] else []
  {
    if r.isRunning then Outcome(r, [])
    else
      var fire := c.onStart.Some? && c.delay == 0;
      var calls := if fire then [Call(c.onStart.value, r.values)] else [];
      Outcome(r.(startFired := fire, startTime := Some(now), isRunning := true), calls)
  }

  /**
   * `stop()`: always clears the start time and the running flag, and fires
   * the end callback when there is one, whether or not the tween was running.
   */
  function StopSpec<E>(c: Config<E>, r: Runtime): (o: Outcome<E>)
    ensures !o.rt.isRunning && o.rt.startTime.None?
    ensures o.rt.values == r.values && o.rt.startFired == r.startFired
    ensures o.calls == EndCalls(c, r.values)
  {
    Outcome(r.(startTime := None, isRunning := false), EndCalls(c, r.values))
  }

  /** The deferred start callback is due: running, past the delay, present and not yet fired. */
  predicate StartDue<E>(c: Config<E>, r: Runtime, now: int) {
    r.isRunning && Elapsed(r, now) >= c.delay && c.onStart.Some? && !r.startFired
  }

  /** The call made when the deferred start callback is due. */
  function StartCalls<E>(c: Config<E>, r: Runtime, now: int): seq<Call<E>> {
    if StartDue(c, r, now) then [Call(c.onStart.value, r.values)] else []
  }

  /** `update()` at time `now`. */
  function Advance<E>(c: Config<E>, r: Runtime, now: int): (o: Outcome<E>)
    requires c.WellFormed()
    // Still waiting for the delay: only the waiting flag is set, no callback runs.
    ensures Elapsed(r, now) < c.delay ==> o == Outcome(r.(isWaitingForDelay := true), [])
    ensures Elapsed(r, now) >= c.delay ==> !o.rt.isWaitingForDelay
    // A tween that is not running is left as it is.
    ensures !r.isRunning ==> o.calls == [] && o.rt == r.(isWaitingForDelay := o.rt.isWaitingForDelay)
    // `update` never starts a tween, and it only stops one by clearing its start time.
    ensures o.rt.isRunning ==> r.isRunning && o.rt.startTime == r.startTime
    ensures !o.rt.isRunning ==> o.rt.startTime == (if r.isRunning then None else r.startTime)
    // The start callback is fired exactly when it is due, first, and the flag records it.
    ensures o.rt.startFired == (r.startFired || StartDue(c, r, now))
    ensures |StartCalls(c, r, now)| <= |o.calls|
    ensures o.calls[..|StartCalls(c, r, now)|] == StartCalls(c, r, now)
    // Every animated key gets a value between its endpoints.
    ensures o.rt.isRunning && Elapsed(r, now) >= c.delay ==>
      o.rt.values.Keys == r.values.Keys + c.from.Keys &&
      forall k :: k in c.from ==> Between(c.from[k], c.to[k], o.rt.values[k])
  {
    var elapsed := Elapsed(r, now);
    if elapsed < c.delay then Outcome(r.(isWaitingForDelay := true), [])
    else if !r.isRunning then Outcome(r.(isWaitingForDelay := false), [])
    else Animate(c, r.(isWaitingForDelay := false), elapsed - c.delay)
  }

  /**
   * The part of `update` for a running tween whose delay is over, `t`
   * milliseconds into its first iteration: the deferred start callback,
   * then either the stop (past the end, not sticking) or the interpolation,
   * the update callback and, past the end, the end callback.
   */
  function Animate<E>(c: Config<E>, r: Runtime, t: nat): Outcome<E>
    requires c.WellFormed()
  {
    var starting := if c.onStart.Some? && !r.startFired then [Call(c.onStart.value, r.values)] else [];
    var r1 := r.(startFired := r.startFired || c.onStart.Some?);
    if Ended(c, t) && !c.sticks then
      var stopped := StopSpec(c, r1);
      Outcome(stopped.rt, starting + stopped.calls)
    else
      var values := r1.values + Interpolate(c.from, c.to, Phase(c, t));
      var ending := if Ended(c, t) then EndCalls(c, values) else [];
      Outcome(r1.(values := values), starting + [Call(c.onUpdate, values)] + ending)
  }

  /** The interpolated values once the delay is over, for a tween that does not stop. */
  lemma AdvanceValues<E>(c: Config<E>, r: Runtime, now: int)
    requires c.WellFormed() && r.isRunning && Elapsed(r, now) >= c.delay
    requires !(Ended(c, Elapsed(r, now) - c.delay) && !c.sticks)
    ensures var t := Elapsed(r, now) - c.delay;
            var o := Advance(c, r, now);
            o.rt.isRunning &&
            o.rt.values == r.values + Interpolate(c.from, c.to, Phase(c, t)) &&
            o.calls == StartCalls(c, r, now) + [Call(c.onUpdate, o.rt.values)] +
                       (if Ended(c, t) then EndCalls(c, o.rt.values) else [])
  {
  }

  /**
   * Past the last iteration of a sticking tween: it keeps running, every key
   * settles on `to` after an odd number of iterations and on `from` after an
   * even one, and the end callback runs right after the update callback.
   */
  lemma {:induction false} StickyEnd<E>(c: Config<E>, r: Runtime, now: int)
    requires c.WellFormed() && c.sticks && r.isRunning
    requires Elapsed(r, now) >= c.delay && Ended(c, Elapsed(r, now) - c.delay)
    ensures var o := Advance(c, r, now);
            && o.rt.isRunning
            && (forall k :: k in c.from ==>
                  o.rt.values[k] == if c.iterations.count % 2 == 1 then c.to[k] else c.from[k])
            && |o.calls| >= 1
            && (c.onEnd.None? ==> o.calls[|o.calls| - 1] == Call(c.onUpdate, o.rt.values))
            && (c.onEnd.Some? ==>
                  |o.calls| >= 2 &&
                  o.calls[|o.calls| - 2] == Call(c.onUpdate, o.rt.values) &&
                  o.calls[|o.calls| - 1] == Call(c.onEnd.value, o.rt.values))
  {
    var t := Elapsed(r, now) - c.delay;
    AdvanceValues(c, r, now);
    var p := Phase(c, t);
    assert p == 0.0 || p == 1.0;
  }

  /**
   * Past the last iteration of a tween that does not stick: it is stopped,
   * keeps its values, and the update callback is not called; only a due
   * start callback and the end callback run.
   */
  lemma {:induction false} NonStickyEnd<E>(c: Config<E>, r: Runtime, now: int)
    requires c.WellFormed() && !c.sticks && r.isRunning
    requires Elapsed(r, now) >= c.delay && Ended(c, Elapsed(r, now) - c.delay)
    ensures var o := Advance(c, r, now);
            && !o.rt.isRunning && o.rt.startTime.None?
            && o.rt.values == r.values
            && o.calls == StartCalls(c, r, now) + EndCalls(c, r.values)
  {
  }

  /** The triangle wave repeats every two durations. */
  lemma {:induction false} FoldedPeriodic(t: nat, d: int)
    requires d > 0
    ensures Folded(t + 2 * d, d) == Folded(t, d)
  {
    var dr := d as real;
    var pct := t as real / dr;
    DivMul(t as real, dr);
    DivUnique((t + 2 * d) as real, dr, pct + 2.0);
    FloorShift(pct);
    if t < d {
      QuotientBelowOne(t as real, dr);
      assert pct.Floor == 0;
    } else if t == d {
      DivUnique(t as real, dr, 1.0);
    }
  }

  lemma DivMul(a: real, b: real)
    requires b > 0.0
    ensures (a / b) * b == a
  {
  }

  lemma DivUnique(a: real, b: real, q: real)
    requires b > 0.0 && q * b == a
    ensures a / b == q
  {
    DivMul(a, b);
    assert (a / b - q) * b == 0.0;
  }

  lemma QuotientBelowOne(a: real, b: real)
    requires 0.0 <= a < b
    ensures 0.0 <= a / b < 1.0
  {
    DivMul(a, b);
  }

  lemma FloorShift(x: real)
    ensures (x + 2.0).Floor == x.Floor + 2
  {
  }

  /** Around the end of the first iteration the wave is mirror-symmetric. */
  lemma {:induction false} FoldedMirror(x: nat, d: int)
    requires 0 <= x <= d && d > 0
    ensures Folded(d + x, d) == Folded(d - x, d)
  {
    var dr := d as real;
    var q := x as real / dr;
    DivMul(x as real, dr);
    DivUnique((d + x) as real, dr, 1.0 + q);
    DivUnique((d - x) as real, dr, 1.0 - q);
    if x < d {
      QuotientBelowOne(x as real, dr);
      assert (1.0 + q).Floor == 1;
    } else {
      DivUnique(x as real, dr, 1.0);
      DivUnique(0.0, dr, 0.0);
    }
  }

  /** The effect of `update` at each of the given times in turn. */
  function Run<E>(c: Config<E>, r: Runtime, times: seq<int>): (o: Outcome<E>)
    requires c.WellFormed()
    decreases |times|
  {
    if times == [] then Outcome(r, [])
    else
      var first := Advance(c, r, times[0]);
      var rest := Run(c, first.rt, times[1..]);
      Outcome(rest.rt, first.calls + rest.calls)
  }

  /** How many of those updates fire the deferred start callback. */
  function StartFirings<E>(c: Config<E>, r: Runtime, times: seq<int>): nat
    requires c.WellFormed()
    decreases |times|
  {
    if times == [] then 0
    else
      var first := Advance(c, r, times[0]);
      (if StartDue(c, r, times[0]) then 1 else 0) + StartFirings(c, first.rt, times[1..])
  }

  /** Once fired, the start callback does not fire again, however many updates follow. */
  lemma {:induction false} StartFiringsBound<E>(c: Config<E>, r: Runtime, times: seq<int>)
    requires c.WellFormed()
    ensures StartFirings(c, r, times) <= if r.startFired then 0 else 1
    decreases |times|
  {
    if times != [] {
      var first := Advance(c, r, times[0]);
      StartFiringsBound(c, first.rt, times[1..]);
    }
  }

  /**
   * Per `start()`, the start callback runs at most once over the start and
   * any run of updates that follows; with a start callback, it has run by
   * the first update that is past the delay.
   */
  lemma {:induction false} StartFiresOnce<E>(c: Config<E>, r: Runtime, now: int, times: seq<int>)
    requires c.WellFormed() && !r.isRunning
    ensures var s := StartSpec(c, r, now);
            |s.calls| + StartFirings(c, s.rt, times) <= 1
    ensures var s := StartSpec(c, r, now);
            c.onStart.Some? && times != [] && times[0] - now >= c.delay ==>
              |s.calls| + StartFirings(c, s.rt, times) == 1
  {
    var s := StartSpec(c, r, now);
    StartFiringsBound(c, s.rt, times);
  }

  /** A tween's configuration and runtime state, as the registry sees it. */
  datatype View<E> = View(config: Config<E>, rt: Runtime)

  /** The calls `updateAll` makes: every registered tween below `n`, in increasing id order. */
  function AdvanceAll<E>(snap: map<nat, View<E>>, now: int, n: nat): seq<Call<E>>
    requires forall id :: id in snap ==> snap[id].config.WellFormed()
  {
    if n == 0 then []
    else
      AdvanceAll(snap, now, n - 1) +
      (if n - 1 in snap then Advance(snap[n - 1].config, snap[n - 1].rt, now).calls else [])
  }

  /** The calls `stopAll` makes: the end callbacks, in increasing id order. */
  function StopAllCalls<E>(snap: map<nat, View<E>>, n: nat): seq<Call<E>> {
    if n == 0 then []
    else
      StopAllCalls(snap, n - 1) +
      (if n - 1 in snap then EndCalls(snap[n - 1].config, snap[n - 1].rt.values) else [])
  }

  /** An `Animation` object. */
  class Tween<E> {
    const id: nat
    const config: Config<E>
    var startTime: Option<int>
    var isRunning: bool
    var isWaitingForDelay: bool
    var values: map<string, real>
    var startFired: bool

    function Rt(): Runtime
      reads this
    {
      Runtime(startTime, isRunning, isWaitingForDelay, values, startFired)
    }

    /** `new Animation(options)`, given the id the shared counter hands out. */
    constructor (id: nat, options: Options<E>)
      requires options.duration > 0 && options.from.Keys <= options.to.Keys
      ensures this.id == id && config == Configure(options) && config.WellFormed()
      ensures Rt() == Detached
    {
      this.id := id;
      config := Configure(options);
      startTime := None;
      isRunning := false;
      isWaitingForDelay := false;
      values := map[];
      startFired := false;
    }

    /**
     * `start()`.  The registry holds only running tweens, each under its own
     * id, and keeps doing so.
     */
    method Start(reg: Registry<E>, now: int) returns (calls: seq<Call<E>>)
      requires reg.Valid() && reg.AllRunning() && id < reg.nextId && config.WellFormed()
      modifies this, reg`list
      ensures reg.Valid() && reg.AllRunning()
      ensures Rt() == StartSpec(config, old(Rt()), now).rt
      ensures calls == StartSpec(config, old(Rt()), now).calls
      ensures reg.list == if old(isRunning) then old(reg.list) else old(reg.list)[id := this]
    {
      calls := [];
      if !isRunning {
        startFired := false;
        if config.onStart.Some? && config.delay == 0 {
          calls := [Call(config.onStart.value, values)];
          startFired := true;
        }
        reg.list := reg.list[id := this];
        startTime := Some(now);
        isRunning := true;
      }
    }

    /** `stop()`, on a registered tween or not. */
    method Stop(reg: Registry<E>) returns (calls: seq<Call<E>>)
      requires reg.Valid() && reg.AllRunning()
      modifies this, reg`list
      ensures reg.Valid() && reg.AllRunning()
      ensures Rt() == StopSpec(config, old(Rt())).rt
      ensures calls == StopSpec(config, old(Rt())).calls
      ensures reg.list == old(reg.list) - {id}
    {
      startTime := None;
      isRunning := false;
      reg.list := reg.list - {id};
      calls := EndCalls(config, values);
    }

    /** The `forEach` over the keys of `from` that writes each interpolated value. */
    method WriteValues(pct: real)
      requires config.WellFormed()
      modifies this`values
      ensures values == old(values) + Interpolate(config.from, config.to, pct)
    {
      ghost var target := values + Interpolate(config.from, config.to, pct);
      var keys := config.from.Keys;
      while keys != {}
        invariant keys <= config.from.Keys
        invariant values.Keys == old(values).Keys + (config.from.Keys - keys)
        invariant forall k :: k in values && k !in keys ==> values[k] == target[k]
        decreases keys
      {
        var k :| k in keys;
        values := values[k := Lerp(config.from[k], config.to[k], pct)];
        keys := keys - {k};
      }
    }

    /** `update()`: a tween it stops leaves the registry. */
    method Update(reg: Registry<E>, now: int) returns (calls: seq<Call<E>>)
      requires config.WellFormed() && reg.Valid() && reg.AllRunning()
      modifies this, reg`list
      ensures reg.Valid() && reg.AllRunning()
      ensures Outcome(Rt(), calls) == Advance(config, old(Rt()), now)
      ensures reg.list == if old(isRunning) && !isRunning then old(reg.list) - {id} else old(reg.list)
    {
      calls := [];
      var timeDiff := now - startTime.GetOr(0);
      if timeDiff < config.delay {
        isWaitingForDelay := true;
        return;
      }
      isWaitingForDelay := false;
      timeDiff := timeDiff - config.delay;
      if !isRunning || isWaitingForDelay {
        return;
      }
      calls := AnimateAt(reg, timeDiff);
    }

    /** The rest of `update` once the delay is over, for a running tween. */
    method AnimateAt(reg: Registry<E>, timeDiff: nat) returns (calls: seq<Call<E>>)
      requires config.WellFormed() && isRunning && !isWaitingForDelay && reg.Valid() && reg.AllRunning()
      modifies this, reg`list
      ensures reg.Valid() && reg.AllRunning()
      ensures Outcome(Rt(), calls) == Animate(config, old(Rt()), timeDiff)
      ensures reg.list == if !isRunning then old(reg.list) - {id} else old(reg.list)
    {
      calls := [];
      if config.onStart.Some? && !isWaitingForDelay && !startFired {
        calls := [Call(config.onStart.value, values)];
        startFired := true;
      }
      var pct := Folded(timeDiff, config.duration);
      var isAnimationEnd := false;
      if Ended(config, timeDiff) {
        if config.sticks {
          pct := (config.iterations.count % 2) as real;
          isAnimationEnd := config.onEnd.Some?;
        } else {
          var ending := Stop(reg);
          calls := calls + ending;
          return;
        }
      }
      assert pct == Phase(config, timeDiff);
      WriteValues(pct);
      calls := calls + [Call(config.onUpdate, values)];
      if isAnimationEnd {
        calls := calls + [Call(config.onEnd.value, values)];
      }
    }
  }

  /** The shared `Animation._list` registry and `Animation._idCounter`. */
  class Registry<E> {
    var list: map<nat, Tween<E>>
    var nextId: nat

    /** Every registered tween sits under its own id, was handed out by the counter, and is well formed. */
    ghost predicate Valid()
      reads this
    {
      forall id :: id in list ==> id < nextId && list[id].id == id && list[id].config.WellFormed()
    }

    /** Only running tweens are registered. */
    ghost predicate AllRunning()
      reads this, list.Values
    {
      forall id :: id in list ==> list[id].isRunning
    }

    constructor ()
      ensures Valid() && AllRunning() && list == map[] && nextId == 0
    {
      list := map[];
      nextId := 0;
    }

    /** `Animation._idCounter++`. */
    method Allocate() returns (id: nat)
      requires Valid()
      modifies this`nextId
      ensures Valid() && id == old(nextId) && nextId == id + 1
    {
      id := nextId;
      nextId := nextId + 1;
    }

    /**
     * `new Animation(options)`: the new tween takes the next id from the
     * counter, so no registered tween has it yet.
     */
    method Create(options: Options<E>) returns (tw: Tween<E>)
      requires Valid() && options.duration > 0 && options.from.Keys <= options.to.Keys
      modifies this`nextId
      ensures Valid() && fresh(tw) && tw.id == old(nextId) && nextId == old(nextId) + 1 && tw.id !in list
      ensures tw.config == Configure(options) && tw.Rt() == Detached
    {
      var id := Allocate();
      tw := new Tween(id, options);
    }
  }
}
