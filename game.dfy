/**
 * The game object (`FlappyBird` in game.js): its constants and canvas
 * arithmetic, the six tweens it sets up and the effects of their callbacks,
 * the state machine with its entry actions, input dispatch, and the
 * per-tick update.
 *
 * Clock reads become a `now` argument (one value per tick or per event),
 * `Math.random()` becomes a supply `draws` of numbers in [0, 1), and the
 * high score kept in `localStorage` is the field `highScore`.
 */
module Game {
  import opened Basics
  import opened Entities
  import opened Geometry
  import opened Ring
  import opened Physics
  import opened Scoring
  import opened Tween
  import Input

  const G: real := 1200.0
  const SCROLLING_SPEED: real := 135.0
  const LAND_HEIGHT: int := 112
  const PIPE_HEIGHT: int := 320
  const PIPE_GAP: int := 98
  /** The canvas is never taller than the land, a pipe, a gap and 44 pixels of padding. */
  const MAX_GAME_HEIGHT: nat := 574
  /** The highest gap middle: 44 pixels of padding plus half a gap from the top. */
  const PIPE_MIN_MID: int := 44 + PIPE_GAP / 2

  /** `setCanvasSize`: the requested height, capped at `MAX_GAME_HEIGHT`. */
  function CanvasHeight(requested: nat): (h: nat)
    ensures h <= MAX_GAME_HEIGHT && h <= requested
    ensures h == requested || h == MAX_GAME_HEIGHT
  {
    if requested < MAX_GAME_HEIGHT then requested else MAX_GAME_HEIGHT
  }

  /** `PIPE_MAX_MID`: the lowest gap middle, half a gap and 44 pixels of padding above the land. */
  function PipeMaxMid(height: nat): int {
    height - LAND_HEIGHT - PIPE_GAP / 2 - 44
  }

  /**
   * `1 + ceil(width / d)`: enough objects `d` apart to cover the whole
   * width, plus one, and no more.
   */
  function Required(width: nat, d: real): (n: nat)
    requires d > 0.0
    ensures n >= 1
    ensures (n - 1) as real * d >= width as real
    ensures n >= 2 ==> (n - 2) as real * d < width as real
  {
    var c := Ceil(width as real / d);
    CeilCovers(width as real, d);
    1 + c
  }

  /** `ceil(w / d)` copies of `d` cover `w`, and one fewer does not. */
  lemma CeilCovers(w: real, d: real)
    requires d > 0.0
    ensures Ceil(w / d) as real * d >= w
    ensures (Ceil(w / d) - 1) as real * d < w
  {
    var q := w / d;
    var c := Ceil(q) as real;
    DivMul(w, d);
    ScaleUp(q, c, d);
    ScaleDown(q, c - 1.0, d);
    assert (c - 1.0) * d < w;
    assert (Ceil(q) - 1) as real == c - 1.0;
  }

  lemma ScaleUp(q: real, c: real, d: real)
    requires d > 0.0 && q <= c
    ensures c * d >= q * d
  {
    MulNonneg(c - q, d);
  }

  lemma ScaleDown(q: real, c: real, d: real)
    requires d > 0.0 && c < q
    ensures c * d < q * d
  {
    assert (q - c) * d > 0.0;
  }

  /** What a tween callback does to the game. */
  datatype Effect =
    | BobBirdie          // `that.birdie.y = this.y`
    | HideScore          // `that.displayScore = false`
    | RevealPlayButton   // `that.playButton.displayed = true`
    | Cosmetic           // drawing, canvas styling

  /** The parts of the game that tween callbacks write. */
  datatype Shown = Shown(birdieY: real, displayScore: bool, buttonDisplayed: bool)

  /** The effect of a list of callback calls, in order. */
  function Perform(s: Shown, calls: seq<Call<Effect>>): Shown
    decreases |calls|
  {
    if calls == [] then s
    else
      var prev := Perform(s, calls[..|calls| - 1]);
      var c := calls[|calls| - 1];
      match c.callback
      case BobBirdie => if "y" in c.snapshot then prev.(birdieY := c.snapshot["y"]) else prev
      case HideScore => prev.(displayScore := false)
      case RevealPlayButton => prev.(buttonDisplayed := true)
      case Cosmetic => prev
  }

  /**
   * After a list of calls the score is shown exactly when it was and no
   * call hides it; the button is shown exactly when it was or some call
   * reveals it; without a bobbing call the bird stays where it was.
   */
  lemma {:induction false} PerformEffects(s: Shown, calls: seq<Call<Effect>>)
    ensures var r := Perform(s, calls);
      && (r.displayScore <==> s.displayScore && forall i :: 0 <= i < |calls| ==> calls[i].callback != HideScore)
      && (r.buttonDisplayed <==> s.buttonDisplayed || exists i :: 0 <= i < |calls| && calls[i].callback == RevealPlayButton)
      && ((forall i :: 0 <= i < |calls| ==> calls[i].callback != BobBirdie) ==> r.birdieY == s.birdieY)
    decreases |calls|
  {
    if calls != [] {
      var init := calls[..|calls| - 1];
      PerformEffects(s, init);
      assert forall i :: 0 <= i < |init| ==> init[i] == calls[i];
    }
  }

  /** Performing two lists of calls one after the other is performing their concatenation. */
  lemma {:induction false} PerformAppend(s: Shown, a: seq<Call<Effect>>, b: seq<Call<Effect>>)
    ensures Perform(s, a + b) == Perform(Perform(s, a), b)
    decreases |b|
  {
    if b == [] {
      assert a + b == a;
    } else {
      var init := b[..|b| - 1];
      assert (a + b)[..|a + b| - 1] == a + init;
      PerformAppend(s, a, init);
    }
  }

  /**
   * What the end callbacks `stopAll` runs do to the game, tween by tween
   * below `n`: the same as performing the calls it makes, in order.
   */
  function StopAllShows(s: Shown, snap: map<nat, View<Effect>>, n: nat): (r: Shown)
  {
    if n == 0 then s
    else
      var prev := StopAllShows(s, snap, n - 1);
      if n - 1 in snap then Perform(prev, EndCalls(snap[n - 1].config, snap[n - 1].rt.values)) else prev
  }

  /** A tween whose end callback, if any, only draws. */
  predicate QuietEnd(c: Config<Effect>) {
    c.onEnd.None? || c.onEnd == Some(Cosmetic)
  }

  /** Stopping tweens whose end callbacks only draw changes nothing that is shown. */
  lemma {:induction false} QuietEnds(s: Shown, snap: map<nat, View<Effect>>, n: nat)
    requires forall id :: id < n && id in snap ==> QuietEnd(snap[id].config)
    ensures StopAllShows(s, snap, n) == s
  {
    if n > 0 {
      QuietEnds(s, snap, n - 1);
      if n - 1 in snap {
        var calls := EndCalls(snap[n - 1].config, snap[n - 1].rt.values);
        assert QuietEnd(snap[n - 1].config);
        if calls != [] {
          assert calls[..0] == [] && calls[0].callback == Cosmetic;
        }
        assert Perform(s, calls) == s;
      }
    }
  }

  lemma {:induction false} StopAllShowsPerform(s: Shown, snap: map<nat, View<Effect>>, n: nat)
    ensures StopAllShows(s, snap, n) == Perform(s, StopAllCalls(snap, n))
  {
    if n > 0 {
      StopAllShowsPerform(s, snap, n - 1);
      var last := if n - 1 in snap then EndCalls(snap[n - 1].config, snap[n - 1].rt.values) else [];
      PerformAppend(s, StopAllCalls(snap, n - 1), last);
    }
  }

  /** The bobbing of the bird on the HOME and START screens (ids 0 and 1). */
  function BobOptions(height: nat, s: Sprites): Options<Effect> {
    Options(
      map["y" := height as real / 2.0 - s.birdHeight / 2.0],
      map["y" := height as real / 2.0 - s.birdHeight],
      375, BobBirdie, Some(Infinite), None, Some(false), None, None)
  }

  /** The white flash on GAMEOVER (id 2). */
  function FlashOptions(): Options<Effect> {
    Options(map["opacity" := 0.0], map["opacity" := 1.0], 75, Cosmetic, Some(Finite(2)), None, Some(false), None, None)
  }

  /** The shake of the canvas on GAMEOVER (id 3). */
  function ShakeOptions(): Options<Effect> {
    Options(map[], map[], 750, Cosmetic, None, None, Some(false), None, Some(Cosmetic))
  }

  /** The fade-in of the "game over" text (id 4), which hides the running score when it starts. */
  function GameOverTextOptions(): Options<Effect> {
    Options(map["opacity" := 0.0], map["opacity" := 1.0], 200, Cosmetic, None, Some(750), None, Some(HideScore), None)
  }

  /** The vertical position of the play button when it is shown. */
  function ButtonY(height: nat, s: Sprites): real {
    height as real - s.buttonHeight - LAND_HEIGHT as real + 10.0
  }

  /** The score panel sliding up (id 5), which shows the play button once it is in place. */
  function ScorePanelOptions(height: nat, s: Sprites): Options<Effect> {
    Options(
      map["y" := height as real],
      map["y" := ButtonY(height, s) - s.scorePanelHeight - 15.0],
      200, Cosmetic, None, Some(1000), None, None, Some(RevealPlayButton))
  }

  /** `stop()`: the tween no longer runs and has no start time. */
  function Stopped(r: Runtime): Runtime {
    r.(startTime := None, isRunning := false)
  }

  /** A tween as `stopAll` leaves it: stopped if it was running. */
  function StopIfRunning(r: Runtime): Runtime {
    if r.isRunning then Stopped(r) else r
  }

  /** `stop()` is `Stopped` together with the end callback. */
  lemma StopIsStopped<E>(c: Config<E>, r: Runtime)
    ensures StopSpec(c, r) == Outcome(Stopped(r), EndCalls(c, r.values))
  {
  }

  /** The ids of the tweens `startStateAnimations` starts in each state. */
  function StateTweenIds(s: State): set<nat> {
    match s
    case Home => {0}
    case Start => {1}
    case GameOver => {2, 3, 4, 5}
    case _ => {}
  }

  /**
   * `start()` on a tween with no start callback that runs without a delay:
   * a running tween is left alone; otherwise it runs from `now`, with its
   * start callback not yet fired.
   */
  function Started(r: Runtime, now: int): Runtime {
    if r.isRunning then r else r.(startTime := Some(now), isRunning := true, startFired := false)
  }

  /** `start()` on each tween of `ids`; the others are left alone. */
  function StartMany(rs: seq<Runtime>, ids: set<nat>, now: int): seq<Runtime> {
    seq(|rs|, i requires 0 <= i < |rs| => if i in ids then Started(rs[i], now) else rs[i])
  }

  /** Starting the GAMEOVER tweens, told tween by tween. */
  lemma GameOverTweens(before: seq<Runtime>, after: seq<Runtime>, now: int)
    requires |before| == |after|
    requires forall id :: 0 <= id < |after| ==> after[id] == if 2 <= id <= 5 then Started(before[id], now) else before[id]
    ensures after == StartMany(before, StateTweenIds(GameOver), now)
  {
    var ids := StateTweenIds(GameOver);
    forall id | 0 <= id < |after|
      ensures after[id] == StartMany(before, ids, now)[id]
    {
      assert id in ids <==> 2 <= id <= 5;
    }
  }

  /** The tweens after the collision check: a hit ending the game starts the GAMEOVER tweens. */
  function AfterCollision(rs: seq<Runtime>, hit: bool, now: int): seq<Runtime> {
    if hit then StartMany(rs, StateTweenIds(GameOver), now) else rs
  }

  /** The running tweens, as the registry lists them for `updateAll` and `stopAll`. */
  function Registered(cs: seq<Config<Effect>>, rs: seq<Runtime>): map<nat, View<Effect>> {
    map id: nat | id < |rs| && id < |cs| && rs[id].isRunning :: View(cs[id], rs[id])
  }

  /** `update()` on each running tween; the stopped ones are left alone. */
  function AdvanceRuntimes(cs: seq<Config<Effect>>, rs: seq<Runtime>, now: int): seq<Runtime>
    requires |rs| <= |cs| && forall i :: 0 <= i < |rs| ==> cs[i].WellFormed()
  {
    seq(|rs|, i requires 0 <= i < |rs| => if rs[i].isRunning then Advance(cs[i], rs[i], now).rt else rs[i])
  }

  /** The tweens, and what their callbacks show, after `updateAll` at `now`. */
  function Animated(cs: seq<Config<Effect>>, rs: seq<Runtime>, shown: Shown, now: int): (seq<Runtime>, Shown)
    requires |rs| <= |cs| && forall i :: 0 <= i < |rs| ==> cs[i].WellFormed()
  {
    (AdvanceRuntimes(cs, rs, now), Perform(shown, AdvanceAll(Registered(cs, rs), now, |rs|)))
  }

  /**
   * Tween `id` after `changeState(s)`: START first stops every running
   * tween and PLAYING stops the START bobbing; then the tweens of `s` start.
   */
  function EntryTween(s: State, id: nat, r: Runtime, now: int): Runtime {
    match s
    case Start =>
      var stopped := StopIfRunning(r);
      if id in StateTweenIds(Start) then Started(stopped, now) else stopped
    case Playing => if id == 1 then Stopped(r) else r
    case _ => if id in StateTweenIds(s) then Started(r, now) else r
  }

  /**
   * None of the game's tweens has a start callback without a delay, so
   * starting one is `Started` and never runs a callback.
   */
  lemma StartIsSilent(c: Config<Effect>, r: Runtime, now: int)
    requires c.onStart.None? || c.delay > 0
    ensures StartSpec(c, r, now) == Outcome(Started(r, now), [])
  {
  }

  /**
   * The bird as START resets it: back at a quarter of the width, level, at
   * rest and on its first frame, with a new colour when `recolour`.  Its
   * vertical speed is kept.
   */
  function StartBirdie(b: Birdie, width: nat, height: nat, s: Sprites, recolour: bool, draw: real): Birdie
    requires 0.0 <= draw < 1.0
  {
    b.(x := width as real / 4.0 - s.birdWidth / 2.0,
       y := height as real / 2.0 - s.birdHeight / 2.0,
       frame := 0, frameTime := 130, lastFrameTime := None, direction := 0,
       lastDirectionChangeTime := None, angle := 0.0,
       version := if recolour then UniformRandom(0, 2, draw) else b.version)
  }

  /** The bird as HOME creates it, centred and still, with a random colour. */
  function HomeBirdie(width: nat, height: nat, s: Sprites, draw: real): (b: Birdie)
    requires 0.0 <= draw < 1.0
    ensures 0 <= b.version <= 2 && b.frame == 0
    ensures b.lastFrameTime.None? && b.lastDirectionChangeTime.None? && b.angle == 0.0 && b.vy == 0.0
  {
    Birdie(s.birdWidth, s.birdHeight,
           width as real / 2.0 - s.birdWidth / 2.0, height as real / 2.0 - s.birdHeight / 2.0,
           0.0, UniformRandom(0, 2, draw), 0, 130, None, 0, None, 0.0)
  }

  /** The `i`th pipe pair as START places it: a head start of half a canvas, then one every `PIPE_DISTANCE`. */
  function StartPipe(width: nat, maxMid: int, i: nat, draw: real): (p: PipePair)
    requires 0.0 <= draw < 1.0
    ensures p.x == 1.5 * width as real + PIPE_HALF_WIDTH + PIPE_DISTANCE * i as real
    ensures PIPE_MIN_MID <= maxMid ==> PIPE_MIN_MID <= p.my <= maxMid
  {
    PipePair(1.5 * width as real + PIPE_HALF_WIDTH + PIPE_DISTANCE * i as real, UniformRandom(PIPE_MIN_MID, maxMid, draw))
  }

  /** How `onUIEvent` reacts to an event. */
  datatype Reaction =
    | Ignore
    | ButtonPress                     // the button moves down 2 pixels
    | ButtonRelease                   // the button moves back up, hides, and a game starts
    | Action(flap: bool, begin: bool) // a flap, and/or the move from START to PLAYING

  /**
   * The decision of `onUIEvent`.  Only accepted events count (a pointer
   * event on the canvas, or one of the accepted keys).  While the play
   * button is shown, any accepted key, or a pointer inside the button (edges
   * included), presses or releases it.  Otherwise a press is an action: a
   * flap in START or PLAYING while the bird is not above the top of the
   * canvas, and the start of play in START.
   */
  function React(e: Input.RawEvent, s: State, button: PlayButton, sprites: Sprites, birdieY: real): (r: Reaction)
    requires e.kind != Input.Other
    ensures var ae := Input.GetAbstractUIEvent(e).value;
      var onButton := ae.Keyboard? || ButtonHit(button, sprites, ae.x, ae.y);
      && (r != Ignore ==> Input.Accepted(e, ae))
      && (r.ButtonPress? <==> Input.Accepted(e, ae) && button.displayed && onButton && ae.moment == Input.Start)
      && (r.ButtonRelease? <==> Input.Accepted(e, ae) && button.displayed && onButton && ae.moment == Input.End)
      && (r.Action? <==> Input.Accepted(e, ae) && !button.displayed && ae.moment == Input.Start)
      && (r.Action? ==> (r.flap <==> (s == Start || s == Playing) && birdieY >= 0.0) && (r.begin <==> s == Start))
  {
    var ae := Input.GetAbstractUIEvent(e).value;
    if !Input.Accepted(e, ae) then Ignore
    else if button.displayed then
      if ae.Keyboard? || ButtonHit(button, sprites, ae.x, ae.y) then
        if ae.moment == Input.Start then ButtonPress else ButtonRelease
      else Ignore
    else if ae.moment == Input.Start then
      Action((s == Start || s == Playing) && birdieY >= 0.0, s == Start)
    else Ignore
  }

  /**
   * `isBirdieColliding`: the bird's box reaches the land, or touches either
   * pipe of some pair.
   */
  predicate Colliding(b: Birdie, ps: seq<PipePair>, height: nat, s: Sprites) {
    var box := BirdieBoundingBox(b);
    box.y + box.height >= height as real - s.landHeight ||
    exists i :: 0 <= i < |ps| && HitsPair(box, ps[i], s)
  }

  /**
   * A bird whose box is above the land and strictly inside the gap of every
   * pair, vertically, does not collide.
   */
  lemma ClearOfEverything(b: Birdie, ps: seq<PipePair>, height: nat, s: Sprites)
    requires b.height >= 0.0 && s.pipeDownHeight >= 0.0
    requires b.y + b.height < height as real - s.landHeight
    requires forall i :: 0 <= i < |ps| ==>
      ps[i].my as real - PIPE_HALF_GAP < b.y && b.y + b.height < ps[i].my as real + PIPE_HALF_GAP
    ensures !Colliding(b, ps, height, s)
  {
    var box := BirdieBoundingBox(b);
    forall i | 0 <= i < |ps|
      ensures !HitsPair(box, ps[i], s)
    {
      InsideGapMisses(box, ps[i], s);
    }
  }


  /** How far something moving at `speed` pixels per second goes in `dt` seconds. */
  function Distance(speed: real, dt: real): real {
    speed * dt
  }

  /** The number of tweens `setUpAnimations` creates. */
  const TWEENS: nat := 6

  /** The id of the score panel, the last tween `setUpAnimations` creates. */
  const SCORE_PANEL: nat := 5

  /**
   * The tweens `setUpAnimations` creates, indexed by the ids the shared
   * counter hands out in creation order: the HOME and START bobbing, then
   * the GAMEOVER flash, shake, text and score panel.  Each is well formed,
   * none has a start callback that runs without a delay, the START
   * bobbing has no end callback, and only the score panel has an end
   * callback that changes what is shown.
   */
  function TweenConfigs(height: nat, s: Sprites): (cs: seq<Config<Effect>>)
    ensures |cs| == TWEENS
    ensures forall id :: 0 <= id < TWEENS ==> cs[id].WellFormed() && (cs[id].onStart.None? || cs[id].delay > 0)
    ensures cs[1].onEnd.None?
    ensures forall id :: 0 <= id < SCORE_PANEL ==> QuietEnd(cs[id])
    ensures cs[SCORE_PANEL].onEnd == Some(RevealPlayButton)
  {
    [Configure(BobOptions(height, s)), Configure(BobOptions(height, s)), Configure(FlashOptions()),
     Configure(ShakeOptions()), Configure(GameOverTextOptions()), Configure(ScorePanelOptions(height, s))]
  }

  /** `updateScore`'s test: the bird's box has reached the left edge of the pipe pair. */
  predicate Passes(b: Birdie, p: PipePair) {
    BirdieBoundingBox(b).x >= p.x - PIPE_HALF_WIDTH
  }
  /**
   * `updateScore` on values: once the bird reaches the pair ahead, the score
   * goes up by one and the pointer moves on to the next pair, wrapping to 0.
   */
  function ScoreAfter(b: Birdie, ps: seq<PipePair>, ahead: nat, score: nat): (r: (nat, nat))
    requires ahead < |ps|
    ensures r.1 < |ps|
    ensures r.0 == score + 1 <==> Passes(b, ps[ahead])
    ensures r.0 == score <==> !Passes(b, ps[ahead])
    ensures r.1 == (if Passes(b, ps[ahead]) then (ahead + 1) % |ps| else ahead)
  {
    if Passes(b, ps[ahead]) then (score + 1, NextAhead(ahead, |ps|)) else (score, ahead)
  }
  /**
   * `onGameOver`'s bookkeeping on values: the high score, whether it is new,
   * and the medal, after a game that scored `score`.
   */
  function Record(score: nat, high: nat, isNew: bool, medal: Option<nat>): (r: (nat, bool, Option<nat>))
    ensures r.0 >= high && r.0 >= score && (r.0 == high || r.0 == score)
    ensures r.1 <==> isNew || score > high
    ensures r.2 == if score >= 10 then MedalFor(score) else medal
  {
    var m := MedalFor(score);
    (if score > high then score else high, isNew || score > high, if m.Some? then m else medal)
  }



  /** The game object. */
  class FlappyBird {
    const width: nat
    const height: nat
    const sprites: Sprites
    const pipePairsRequired: nat
    const landTilesRequired: nat
    const pipeMaxMid: int
    /** The configurations of the six tweens, indexed by id. */
    const configs: seq<Config<Effect>>

    var state: State
    var t: int
    var dt: real
    var lastFrameTime: Option<int>
    var g: real
    var pipeScrollingSpeed: real
    var landScrollingSpeed: real
    var birdie: Birdie
    var playButton: PlayButton
    var pipePairs: seq<PipePair>
    var pipePairAheadId: nat
    var landTilesX: seq<real>
    var flapThisFrame: bool
    var displayScore: bool
    var score: nat
    var newHighScore: bool
    var medalId: Option<nat>
    /** The value kept under "highScore" in `localStorage`. */
    var highScore: nat
    /** An update threw (see `Step`), so no further frame is requested. */
    var halted: bool
    /**
     * The run-time state of the six tweens, indexed by id.  The registry
     * `Animation._list` holds exactly the running ones.
     */
    var tweens: seq<Runtime>

    /**
     * There are six tweens, well formed and without a start callback that
     * runs without a delay; the arrays have the
     * lengths `setCanvasSize` fixed (the pipes once a game has started), the
     * pointer to the pair ahead is an index of the pipe array, and the frame
     * is one of the three wing sprites.
     */
    ghost predicate Valid()
      reads this`tweens, this`state, this`landTilesX, this`pipePairs, this`pipePairAheadId, this`birdie
    {
      && ConfigsOk() && |tweens| == TWEENS
      && (state != Loading ==> |landTilesX| == landTilesRequired)
      && (pipePairs == [] || (|pipePairs| == pipePairsRequired && pipePairAheadId < |pipePairs|))
      && birdie.frame < FRAMES
    }

    /** The part of `Valid` about the fixed configuration of the game. */
    ghost predicate ConfigsOk() {
      && |configs| == TWEENS && configs[1].onEnd.None? && pipePairsRequired >= 1
      && (forall id :: 0 <= id < TWEENS ==>
            configs[id].WellFormed() && (configs[id].onStart.None? || configs[id].delay > 0) &&
            (id < SCORE_PANEL ==> QuietEnd(configs[id])))
    }

    /** The canvas arithmetic of `setCanvasSize`, and the tweens of `setUpAnimations`. */
    ghost predicate Configured() {
      && configs == TweenConfigs(height, sprites)
      && pipePairsRequired == Required(width, PIPE_DISTANCE)
      && landTilesRequired == Required(width, LAND_WIDTH)
      && pipeMaxMid == PipeMaxMid(height)
    }

    /** The registered tweens as `Animation.updateAll` and `stopAll` find them. */
    ghost function Snapshot(): map<nat, View<Effect>>
      reads this`tweens
    {
      Registered(configs, tweens)
    }

    function Shows(): Shown
      reads this`birdie, this`displayScore, this`playButton
    {
      Shown(birdie.y, displayScore, playButton.displayed)
    }

    /** Run the effects of the callbacks a tween operation made. */
    method ApplyCalls(calls: seq<Call<Effect>>)
      modifies this`birdie, this`displayScore, this`playButton
      ensures Shows() == Perform(old(Shows()), calls)
      ensures birdie == old(birdie).(y := birdie.y) && playButton == old(playButton).(displayed := playButton.displayed)
    {
      var s := Perform(Shows(), calls);
      birdie := birdie.(y := s.birdieY);
      displayScore := s.displayScore;
      playButton := playButton.(displayed := s.buttonDisplayed);
    }

    /** `start()` on tween `id`; none of the game's tweens runs a callback when started. */
    method StartTween(id: nat, now: int)
      requires Valid() && id < TWEENS
      modifies this`tweens
      ensures Valid()
      ensures tweens == old(tweens)[id := Started(old(tweens[id]), now)]
    {
      var o := StartSpec(configs[id], tweens[id], now);
      StartIsSilent(configs[id], tweens[id], now);
      tweens := tweens[id := o.rt];
    }

    /** `stop()` on tween `id`, with the effect of its end callback. */
    method StopTween(id: nat)
      requires Valid() && id < TWEENS
      modifies this`tweens, this`birdie, this`displayScore, this`playButton
      ensures Valid()
      ensures tweens == old(tweens)[id := Stopped(old(tweens[id]))]
      ensures Shows() == Perform(old(Shows()), EndCalls(configs[id], old(tweens[id]).values))
      ensures birdie == old(birdie).(y := birdie.y) && playButton == old(playButton).(displayed := playButton.displayed)
    {
      var o := StopSpec(configs[id], tweens[id]);
      tweens := tweens[id := o.rt];
      ApplyCalls(o.calls);
    }

    /**
     * `stopAll` throws: the score panel is registered, and its end callback
     * draws the medal `medalId` and the number `score`.  Both are
     * `undefined` until the first START, which is exactly while there are
     * no pipe pairs; `drawTile` then reads a tile that does not exist.
     */
    predicate StopAllThrows()
      reads this`pipePairs, this`tweens
    {
      pipePairs == [] && |tweens| == TWEENS && tweens[SCORE_PANEL].isRunning
    }

    /**
     * One step of `stopAll`: tween `i`, if registered, is stopped and its end
     * callback runs; `ok` is false when that callback throws.
     */
    method StopOne(i: nat) returns (ok: bool)
      requires |tweens| == TWEENS && |configs| == TWEENS && i < TWEENS
      modifies this`tweens, this`birdie, this`displayScore, this`playButton
      ensures tweens == old(tweens)[i := StopIfRunning(old(tweens[i]))]
      ensures ok <==> !(i == SCORE_PANEL && old(StopAllThrows()))
      ensures Shows() ==
        if ok && old(tweens[i]).isRunning then Perform(old(Shows()), EndCalls(configs[i], old(tweens[i]).values)) else old(Shows())
      ensures birdie == old(birdie).(y := birdie.y) && playButton == old(playButton).(displayed := playButton.displayed)
    {
      ok := true;
      if tweens[i].isRunning {
        var o := StopSpec(configs[i], tweens[i]);
        StopIsStopped(configs[i], tweens[i]);
        tweens := tweens[i := o.rt];
        if i == SCORE_PANEL && pipePairs == [] {
          return false;
        }
        ApplyCalls(o.calls);
      }
    }

    /**
     * `Animation.stopAll`: stop every registered tween in increasing id
     * order, each running its end callback.  When that throws at the score
     * panel (`StopAllThrows`), the panel is already stopped, its callback has
     * no effect, and `ok` is false.
     */
    method StopAll() returns (ok: bool)
      requires Valid()
      modifies this`tweens, this`birdie, this`displayScore, this`playButton
      ensures Valid()
      ensures ok <==> !old(StopAllThrows())
      ensures forall id :: 0 <= id < TWEENS ==> !tweens[id].isRunning && tweens[id] == StopIfRunning(old(tweens[id]))
      ensures ok ==> Shows() == StopAllShows(old(Shows()), old(Snapshot()), |tweens|)
      ensures !ok ==> Shows() == old(Shows())
      ensures birdie == old(birdie).(y := birdie.y) && playButton == old(playButton).(displayed := playButton.displayed)
    {
      ghost var snap := Snapshot();
      var i := 0;
      while i < TWEENS
        invariant i <= TWEENS && |tweens| == TWEENS
        invariant forall id :: 0 <= id < TWEENS ==> tweens[id] == if id < i then StopIfRunning(old(tweens[id])) else old(tweens[id])
        invariant Shows() == StopAllShows(old(Shows()), snap, i)
        invariant birdie == old(birdie).(y := birdie.y) && playButton == old(playButton).(displayed := playButton.displayed)
        invariant i > SCORE_PANEL ==> !old(StopAllThrows())
      {
        assert tweens[i] == old(tweens[i]);
        assert i in snap <==> tweens[i].isRunning;
        assert i in snap ==> snap[i] == View(configs[i], tweens[i]);
        var stopped := StopOne(i);
        if !stopped {
          QuietEnds(old(Shows()), snap, SCORE_PANEL);
          return false;
        }
        i := i + 1;
      }
      ok := true;
    }

    /**
     * `Animation.updateAll`: update every registered tween in increasing id
     * order; the calls are returned for the caller to perform.
     */
    method UpdateAll(now: int) returns (calls: seq<Call<Effect>>)
      requires Valid()
      modifies this`tweens
      ensures Valid()
      ensures tweens == AdvanceRuntimes(configs, old(tweens), now)
      ensures calls == AdvanceAll(old(Snapshot()), now, |tweens|)
    {
      ghost var snap := Snapshot();
      calls := [];
      var i := 0;
      while i < TWEENS
        invariant i <= TWEENS && |tweens| == TWEENS
        invariant forall id :: 0 <= id < TWEENS ==>
          tweens[id] == if id < i && old(tweens[id]).isRunning then Advance(configs[id], old(tweens[id]), now).rt else old(tweens[id])
        invariant calls == AdvanceAll(snap, now, i)
      {
        if tweens[i].isRunning {
          var o := Advance(configs[i], tweens[i], now);
          tweens := tweens[i := o.rt];
          calls := calls + o.calls;
        }
        i := i + 1;
      }
    }

    /** `startStateAnimations`: start the tweens that belong to the current state. */
    method StartStateAnimations(now: int)
      requires Valid()
      modifies this`tweens
      ensures Valid()
      ensures forall id :: 0 <= id < TWEENS ==>
        tweens[id] == if id in StateTweenIds(state) then Started(old(tweens[id]), now) else old(tweens[id])
    {
      match state {
        case Home =>
          StartTween(0, now);
        case Start =>
          StartTween(1, now);
        case GameOver =>
          StartTween(2, now);
          StartTween(3, now);
          StartTween(4, now);
          StartTween(5, now);
        case _ =>
      }
    }

    /**
     * `changeState(HOME)`: a fresh land strip, the play button and a fresh
     * bird, then the HOME bobbing starts.
     */
    method EnterHome(now: int, draw: real)
      requires Valid() && 0.0 <= draw < 1.0
      modifies this`state, this`landTilesX, this`landScrollingSpeed, this`playButton, this`birdie, this`tweens
      ensures Valid() && state == Home
      ensures |landTilesX| == landTilesRequired
      ensures forall i :: 0 <= i < |landTilesX| ==> landTilesX[i] == i as real * LAND_WIDTH
      ensures landScrollingSpeed == SCROLLING_SPEED
      ensures playButton == PlayButton(width as real / 2.0 - sprites.buttonWidth / 2.0, ButtonY(height, sprites), true)
      ensures birdie == HomeBirdie(width, height, sprites, draw)
      ensures tweens == old(tweens)[0 := Started(old(tweens[0]), now)]
    {
      landScrollingSpeed := SCROLLING_SPEED;
      playButton := PlayButton(width as real / 2.0 - sprites.buttonWidth / 2.0, ButtonY(height, sprites), true);
      birdie := HomeBirdie(width, height, sprites, draw);
      LayOutLand();
      state := Home;
      StartStateAnimations(now);
    }

    /** The land tiles of the HOME screen, `landTilesRequired` of them side by side from 0. */
    method LayOutLand()
      modifies this`landTilesX
      ensures |landTilesX| == landTilesRequired
      ensures forall i :: 0 <= i < |landTilesX| ==> landTilesX[i] == i as real * LAND_WIDTH
    {
      landTilesX := [];
      var i := 0;
      while i < landTilesRequired
        invariant 0 <= i <= landTilesRequired && |landTilesX| == i
        invariant forall j :: 0 <= j < i ==> landTilesX[j] == j as real * LAND_WIDTH
      {
        landTilesX := landTilesX + [i as real * LAND_WIDTH];
        i := i + 1;
      }
    }

    /**
     * `changeState(START)`: stop every tween (running their end callbacks),
     * hide the button, reset the score and the bird (a new colour unless
     * coming from START), lay out a fresh row of pipe pairs, then the START
     * bobbing starts.  The bird's vertical speed is left as it was.  When
     * `stopAll` throws (`StopAllThrows`), nothing after it happens: `ok`
     * is false, the tweens are stopped and everything else is as it was.
     */
    method EnterStart(now: int, draws: seq<real>) returns (ok: bool)
      requires Valid() && state != Loading && Unit(draws) && |draws| > pipePairsRequired
      modifies this`state, this`playButton, this`landScrollingSpeed, this`displayScore, this`score, this`newHighScore,
        this`medalId, this`birdie, this`pipePairs, this`pipePairAheadId, this`tweens
      ensures Valid() && (ok <==> !old(StopAllThrows()))
      ensures ok ==> state == Start
      ensures ok ==> forall id :: 0 <= id < TWEENS ==>
        var stopped := StopIfRunning(old(tweens[id]));
        tweens[id] == if id == 1 then Started(stopped, now) else stopped
      ensures ok ==> playButton == old(playButton).(displayed := false)
      ensures ok ==> landScrollingSpeed == SCROLLING_SPEED && displayScore && score == 0 && !newHighScore && medalId.None?
      ensures ok ==> birdie == StartBirdie(old(birdie), width, height, sprites, old(state) != Start, draws[0])
      ensures ok ==> |pipePairs| == pipePairsRequired && pipePairAheadId == 0
      ensures ok ==> forall i :: 0 <= i < |pipePairs| ==> pipePairs[i] == StartPipe(width, pipeMaxMid, i, draws[i + 1])
      ensures !ok ==> forall id :: 0 <= id < TWEENS ==> tweens[id] == StopIfRunning(old(tweens[id]))
      ensures !ok ==>
        && (state, playButton, landScrollingSpeed, displayScore, birdie) ==
           old((state, playButton, landScrollingSpeed, displayScore, birdie))
        && (score, newHighScore, medalId, pipePairs, pipePairAheadId) ==
           old((score, newHighScore, medalId, pipePairs, pipePairAheadId))
    {
      ok := StopAll();
      if !ok {
        return;
      }
      ResetRound(draws);
      LayOutPipes(draws);
      state := Start;
      StartStateAnimations(now);
    }

    /**
     * The resets of `changeState(START)` between stopping the tweens and
     * laying out the pipes.
     */
    method ResetRound(draws: seq<real>)
      requires Unit(draws) && |draws| > 0
      modifies this`playButton, this`landScrollingSpeed, this`displayScore, this`score, this`newHighScore,
        this`medalId, this`birdie
      ensures playButton == old(playButton).(displayed := false)
      ensures landScrollingSpeed == SCROLLING_SPEED && displayScore && score == 0 && !newHighScore && medalId.None?
      ensures birdie == StartBirdie(old(birdie), width, height, sprites, state != Start, draws[0])
    {
      playButton := playButton.(displayed := false);
      landScrollingSpeed := SCROLLING_SPEED;
      displayScore := true;
      score := 0;
      newHighScore := false;
      medalId := None;
      birdie := birdie.(
        x := width as real / 4.0 - sprites.birdWidth / 2.0,
        y := height as real / 2.0 - sprites.birdHeight / 2.0,
        frame := 0, frameTime := 130, lastFrameTime := None, direction := 0,
        lastDirectionChangeTime := None, angle := 0.0);
      if state != Start {
        birdie := birdie.(version := UniformRandom(0, 2, draws[0]));
      }
    }

    /** The pipe pairs of a new game, `pipePairsRequired` of them, written over the old ones if any. */
    method LayOutPipes(draws: seq<real>)
      requires Unit(draws) && |draws| > pipePairsRequired
      requires pipePairs == [] || |pipePairs| == pipePairsRequired
      modifies this`pipePairs, this`pipePairAheadId
      ensures |pipePairs| == pipePairsRequired && pipePairAheadId == 0
      ensures forall i :: 0 <= i < |pipePairs| ==> pipePairs[i] == StartPipe(width, pipeMaxMid, i, draws[i + 1])
    {
      var i := 0;
      while i < pipePairsRequired
        invariant 0 <= i <= pipePairsRequired
        invariant |pipePairs| == if old(pipePairs) == [] then i else pipePairsRequired
        invariant forall j :: 0 <= j < i ==> pipePairs[j] == StartPipe(width, pipeMaxMid, j, draws[j + 1])
      {
        var p := StartPipe(width, pipeMaxMid, i, draws[i + 1]);
        if i < |pipePairs| {
          pipePairs := pipePairs[i := p];
        } else {
          pipePairs := pipePairs + [p];
        }
        i := i + 1;
      }
      pipePairAheadId := 0;
    }

    /**
     * `changeState(PLAYING)`: the START bobbing stops, gravity and scrolling
     * start, the wings beat faster.
     */
    method EnterPlaying()
      requires Valid() && state != Loading
      modifies this`state, this`tweens, this`birdie, this`displayScore, this`playButton,
        this`g, this`pipeScrollingSpeed, this`landScrollingSpeed
      ensures Valid() && state == Playing
      ensures tweens == old(tweens)[1 := Stopped(old(tweens[1]))]
      ensures g == G && pipeScrollingSpeed == SCROLLING_SPEED && landScrollingSpeed == SCROLLING_SPEED
      ensures birdie == old(birdie).(frameTime := 60)
      ensures displayScore == old(displayScore) && playButton == old(playButton)
    {
      StopTween(1);
      g := G;
      pipeScrollingSpeed := SCROLLING_SPEED;
      landScrollingSpeed := SCROLLING_SPEED;
      birdie := birdie.(frameTime := 60);
      state := Playing;
    }

    /**
     * `changeState(GAMEOVER)`: scrolling stops, the button returns to its
     * resting place, then the flash, the shake, the text and the score panel
     * start.
     */
    method EnterGameOver(now: int)
      requires Valid() && state != Loading
      modifies this`state, this`pipeScrollingSpeed, this`landScrollingSpeed, this`playButton, this`tweens
      ensures Valid() && state == GameOver
      ensures pipeScrollingSpeed == 0.0 && landScrollingSpeed == 0.0
      ensures playButton == old(playButton).(y := ButtonY(height, sprites))
      ensures forall id :: 0 <= id < TWEENS ==> tweens[id] == if 2 <= id then Started(old(tweens[id]), now) else old(tweens[id])
    {
      pipeScrollingSpeed := 0.0;
      landScrollingSpeed := 0.0;
      playButton := playButton.(y := ButtonY(height, sprites));
      state := GameOver;
      StartStateAnimations(now);
    }

    /**
     * `changeState`: the entry actions of `s`, then the state itself, then
     * the start of the tweens of `s`.  HOME uses `draws[0]` for the bird's
     * colour; START uses `draws[0]` for it and `draws[1..]` for the pipes.
     * Entering START throws inside `stopAll` when `StopAllThrows` holds:
     * then `ok` is false, the state stays, and only the tweens are stopped.
     */
    method ChangeState(s: State, now: int, draws: seq<real>) returns (ok: bool)
      requires Valid() && s != Loading && (state == Loading ==> s == Home)
      requires Unit(draws) && |draws| > pipePairsRequired
      modifies this`state, this`landTilesX, this`landScrollingSpeed, this`pipeScrollingSpeed, this`g,
        this`playButton, this`birdie, this`displayScore, this`score, this`newHighScore, this`medalId,
        this`pipePairs, this`pipePairAheadId, this`tweens
      ensures Valid() && (ok <==> !(s == Start && old(StopAllThrows())))
      ensures state == if ok then s else old(state)
      // Which tweens are registered afterwards; those of `s` that were not running start now.
      ensures ok ==> forall id :: 0 <= id < TWEENS ==>
        (tweens[id].isRunning <==>
          id in StateTweenIds(s) || (s != Start && old(tweens[id]).isRunning && !(s == Playing && id == 1)))
      ensures ok ==> forall id :: id in StateTweenIds(s) && (s == Start || !old(tweens[id]).isRunning) ==>
        tweens[id].startTime == Some(now)
      ensures forall id :: 0 <= id < TWEENS ==>
        tweens[id] == if ok then EntryTween(s, id, old(tweens[id]), now) else StopIfRunning(old(tweens[id]))
      // What each state resets.
      ensures s == Home ==> birdie == HomeBirdie(width, height, sprites, draws[0]) && playButton.displayed
      ensures s == Home ==> forall i :: 0 <= i < |landTilesX| ==> landTilesX[i] == i as real * LAND_WIDTH
      ensures s == Home ==>
        landScrollingSpeed == SCROLLING_SPEED && |landTilesX| == landTilesRequired && displayScore == old(displayScore) &&
        playButton == PlayButton(width as real / 2.0 - sprites.buttonWidth / 2.0, ButtonY(height, sprites), true)
      ensures s != Home ==> landTilesX == old(landTilesX)
      ensures s == Start && ok ==> score == 0 && displayScore && !newHighScore && medalId.None?
      ensures s == Start && ok ==> playButton == old(playButton).(displayed := false)
      ensures s == Start && ok ==> |pipePairs| == pipePairsRequired && pipePairAheadId == 0
      ensures s == Start && ok ==> forall i :: 0 <= i < |pipePairs| ==> pipePairs[i] == StartPipe(width, pipeMaxMid, i, draws[i + 1])
      ensures s == Start && ok ==>
        birdie == StartBirdie(old(birdie), width, height, sprites, old(state) != Start, draws[0]) &&
        landScrollingSpeed == SCROLLING_SPEED
      ensures s != Start || !ok ==> score == old(score) && medalId == old(medalId) && newHighScore == old(newHighScore)
      ensures s != Start || !ok ==> pipePairs == old(pipePairs) && pipePairAheadId == old(pipePairAheadId)
      ensures !ok ==>
        (playButton, landScrollingSpeed, displayScore, birdie) == old((playButton, landScrollingSpeed, displayScore, birdie))
      ensures s == Playing ==> g == G && pipeScrollingSpeed == SCROLLING_SPEED && landScrollingSpeed == SCROLLING_SPEED
      ensures s == Playing ==> playButton == old(playButton)
      ensures s == Playing ==> birdie == old(birdie).(frameTime := 60) && displayScore == old(displayScore)
      ensures s == GameOver ==> pipeScrollingSpeed == 0.0 && landScrollingSpeed == 0.0
      ensures s == GameOver ==> birdie == old(birdie) && displayScore == old(displayScore)
      ensures s == GameOver ==> playButton == old(playButton).(y := ButtonY(height, sprites))
      // Gravity is set only by PLAYING, the pipes' speed only by PLAYING and GAMEOVER.
      ensures s != Playing ==> g == old(g)
      ensures s == Home || s == Start ==> pipeScrollingSpeed == old(pipeScrollingSpeed)
    {
      ok := true;
      match s {
        case Home => EnterHome(now, draws[0]);
        case Start => ok := EnterStart(now, draws);
        case Playing => EnterPlaying();
        case GameOver => EnterGameOver(now);
      }
    }

    /** `updateBirdieAngle` on the bird. */
    method UpdateBirdieAngle()
      modifies this`birdie
      ensures birdie == old(birdie).(angle := AngleStep(old(birdie), dt))
    {
      if birdie.lastDirectionChangeTime.None? {
        return;
      }
      if birdie.direction >= 0 {
        var a := birdie.angle - birdie.vy * 2.0 * dt;
        birdie := birdie.(angle := if MIN_ANGLE < a then a else MIN_ANGLE);
      } else {
        var a := birdie.angle - birdie.vy / 2.0 * dt;
        birdie := birdie.(angle := if MAX_ANGLE < a then MAX_ANGLE else a);
      }
    }

    /** The lowest the bird's top edge may go: its full height above the land. */
    function FloorY(): real
      reads this`birdie
    {
      height as real - birdie.height - sprites.landHeight
    }

    /** The bird after `updateBirdie` over `dt` seconds at time `now`. */
    function MovedBy(dt: real, now: int): Birdie
      reads this`birdie, this`state, this`flapThisFrame, this`g
    {
      BirdieStep(birdie, state, flapThisFrame, g, dt, now, FloorY())
    }

    /** `updateBirdie`: motion past START, then the wing frame. */
    method UpdateBirdie()
      requires birdie.frame < FRAMES
      modifies this`birdie
      ensures birdie == BirdieStep(old(birdie), state, flapThisFrame, g, dt, t, old(FloorY()))
      ensures birdie.frame < FRAMES
    {
      BirdieStepFrame(birdie, state, flapThisFrame, g, dt, t, FloorY());
      if state.Ord() > Start.Ord() {
        MoveBirdie();
      }
      AdvanceFrame();
    }

    /** The motion part of `updateBirdie`: flap or gravity, the direction, the move, the angle. */
    method MoveBirdie()
      modifies this`birdie
      ensures birdie == Motion(old(birdie), flapThisFrame, g, dt, t, old(FloorY()))
    {
      var prevDirection := birdie.direction;
      if flapThisFrame {
        birdie := birdie.(vy := FLAP_FORCE, direction := 1);
      } else {
        var vy := birdie.vy - g * dt;
        birdie := birdie.(vy := vy, direction := Sign(vy));
      }
      if birdie.direction != prevDirection {
        birdie := birdie.(lastDirectionChangeTime := Some(t));
      }
      var y := birdie.y - birdie.vy * dt;
      var floor := height as real - birdie.height - sprites.landHeight;
      birdie := birdie.(y := if floor < y then floor else y);
      UpdateBirdieAngle();
    }

    /** The frame part of `updateBirdie`. */
    method AdvanceFrame()
      modifies this`birdie
      ensures birdie == Flutter(old(birdie), state == GameOver, t)
    {
      if state == GameOver {
        birdie := birdie.(frame := 1);
      } else if birdie.lastFrameTime.None? {
        birdie := birdie.(frame := 0, lastFrameTime := Some(t));
      } else if t - birdie.lastFrameTime.value > birdie.frameTime {
        var f := birdie.frame + 1;
        if f == FRAMES {
          f := 0;
        }
        birdie := birdie.(frame := f, lastFrameTime := Some(t));
      }
    }

    /** How far the land scrolls this tick. */
    function LandShift(): real
      reads this`landScrollingSpeed, this`dt
    {
      Distance(landScrollingSpeed, dt)
    }

    /** How far the pipes scroll this tick. */
    function PipeShift(): real
      reads this`pipeScrollingSpeed, this`dt
    {
      Distance(pipeScrollingSpeed, dt)
    }

    /** `updateLand`: the tiles are processed left to right, as `ScrollLand` describes. */
    method UpdateLand()
      modifies this`landTilesX
      ensures landTilesX == ScrollLand(old(landTilesX), old(LandShift()))
    {
      ghost var xs := landTilesX;
      var shift := LandShift();
      var i := 0;
      while i < |landTilesX|
        invariant i <= |landTilesX| == |xs|
        invariant landTilesX == LandStage(xs, shift, i)
      {
        ghost var before := landTilesX;
        if landTilesX[i] + LAND_WIDTH <= 0.0 {
          landTilesX := landTilesX[i := SeqMax(landTilesX) + LAND_WIDTH];
        }
        landTilesX := landTilesX[i := landTilesX[i] - shift];
        assert landTilesX == before[i := LandTile(before, i, shift)];
        i := i + 1;
      }
      assert i == |xs|;
    }

    /**
     * `updatePipePairs`: the pairs are processed left to right, as
     * `ScrollPipes` describes; a pair recycled in slot `i` draws its new gap
     * with `draws[i]`.
     */
    method UpdatePipePairs(draws: seq<real>)
      requires Unit(draws) && |pipePairs| <= |draws|
      modifies this`pipePairs
      ensures pipePairs == ScrollPipes(old(pipePairs), old(PipeShift()), PIPE_MIN_MID, pipeMaxMid, draws)
    {
      ghost var ps := pipePairs;
      var shift := PipeShift();
      var i := 0;
      while i < |pipePairs|
        invariant i <= |pipePairs| == |ps|
        invariant pipePairs == PipeStage(ps, shift, PIPE_MIN_MID, pipeMaxMid, draws, i)
      {
        ghost var before := pipePairs;
        pipePairs := pipePairs[i := pipePairs[i].(x := pipePairs[i].x - shift)];
        if pipePairs[i].x + PIPE_HALF_WIDTH <= 0.0 {
          var neighbour := if i > 0 then i - 1 else |pipePairs| - 1;
          pipePairs := pipePairs[i := PipePair(pipePairs[neighbour].x + PIPE_DISTANCE,
                                               UniformRandom(PIPE_MIN_MID, pipeMaxMid, draws[i]))];
        }
        assert pipePairs == PipeSlot(before, i, shift, PIPE_MIN_MID, pipeMaxMid, draws[i]);
        i := i + 1;
      }
    }

    /**
     * `updateScore`: once the bird reaches the pair ahead, the score goes up
     * by one and the pointer moves to the next pair, wrapping to 0.
     */
    method UpdateScore()
      requires pipePairAheadId < |pipePairs|
      modifies this`score, this`pipePairAheadId
      ensures pipePairAheadId < |pipePairs|
      ensures Passes(birdie, pipePairs[old(pipePairAheadId)]) ==>
        score == old(score) + 1 && pipePairAheadId == NextAhead(old(pipePairAheadId), |pipePairs|)
      ensures !Passes(birdie, pipePairs[old(pipePairAheadId)]) ==>
        score == old(score) && pipePairAheadId == old(pipePairAheadId)
      ensures (score, pipePairAheadId) == ScoreAfter(birdie, pipePairs, old(pipePairAheadId), old(score))
    {
      if BirdieBoundingBox(birdie).x >= pipePairs[pipePairAheadId].x - PIPE_HALF_WIDTH {
        score := score + 1;
        pipePairAheadId := pipePairAheadId + 1;
        if pipePairAheadId == |pipePairs| {
          pipePairAheadId := 0;
        }
      }
    }

    /** `isBirdieColliding`: the land first, then the pairs in order. */
    method IsBirdieColliding() returns (c: bool)
      ensures c == Colliding(birdie, pipePairs, height, sprites)
    {
      var box := BirdieBoundingBox(birdie);
      if box.y + box.height >= height as real - sprites.landHeight {
        return true;
      }
      var i := 0;
      while i < |pipePairs|
        invariant i <= |pipePairs|
        invariant forall j :: 0 <= j < i ==> !HitsPair(box, pipePairs[j], sprites)
      {
        var pipeData := PipeData(pipePairs[i], sprites);
        if Collide(box, pipeData.down) || Collide(box, pipeData.up) {
          return true;
        }
        i := i + 1;
      }
      return false;
    }

    /**
     * `onGameOver`: a score above the stored high score replaces it and is
     * flagged as new; a score of 10 or more earns a medal; then GAMEOVER.
     */
    method OnGameOver(now: int)
      requires Valid() && state != Loading
      modifies this`highScore, this`newHighScore, this`medalId,
        this`state, this`pipeScrollingSpeed, this`landScrollingSpeed, this`playButton, this`tweens
      ensures Valid() && state == GameOver
      ensures highScore >= old(highScore) && highScore >= score
      ensures highScore == if score > old(highScore) then score else old(highScore)
      ensures newHighScore <==> old(newHighScore) || score > old(highScore)
      ensures medalId == if score >= 10 then MedalFor(score) else old(medalId)
      ensures (highScore, newHighScore, medalId) == Record(score, old(highScore), old(newHighScore), old(medalId))
      ensures pipeScrollingSpeed == 0.0 && landScrollingSpeed == 0.0
      ensures playButton == old(playButton).(y := ButtonY(height, sprites))
      ensures tweens == StartMany(old(tweens), StateTweenIds(GameOver), now)
    {
      RecordScore();
      ghost var before := tweens;
      EnterGameOver(now);
      GameOverTweens(before, tweens, now);
    }

    /** The first half of `onGameOver`: the high score, its flag and the medal. */
    method RecordScore()
      modifies this`highScore, this`newHighScore, this`medalId
      ensures highScore >= old(highScore) && highScore >= score
      ensures highScore == if score > old(highScore) then score else old(highScore)
      ensures newHighScore <==> old(newHighScore) || score > old(highScore)
      ensures medalId == if score >= 10 then MedalFor(score) else old(medalId)
      ensures (highScore, newHighScore, medalId) == Record(score, old(highScore), old(newHighScore), old(medalId))
    {
      if score > highScore {
        highScore := score;
        newHighScore := true;
      }
      var medal := MedalFor(score);
      if medal.Some? {
        medalId := medal;
      }
    }

    /** `handleBirdieCollision`: the game ends once; a collision in GAMEOVER does nothing. */
    method HandleBirdieCollision(now: int)
      requires Valid() && state != Loading
      modifies this`highScore, this`newHighScore, this`medalId,
        this`state, this`pipeScrollingSpeed, this`landScrollingSpeed, this`playButton, this`tweens
      ensures Valid() && state == GameOver
      ensures old(state) == GameOver ==> unchanged(this)
      ensures old(state) != GameOver ==>
        (highScore, newHighScore, medalId) == Record(score, old(highScore), old(newHighScore), old(medalId)) &&
        pipeScrollingSpeed == 0.0 && landScrollingSpeed == 0.0 && playButton == old(playButton).(y := ButtonY(height, sprites)) &&
        tweens == StartMany(old(tweens), StateTweenIds(GameOver), now)
      ensures Shows() == old(Shows())
    {
      if state != GameOver {
        OnGameOver(now);
      }
    }

    /** `checkBirdieCollision`: end the game when the bird hits the land or a pipe. */
    method CheckBirdieCollision(now: int) returns (collided: bool)
      requires Valid() && state != Loading
      modifies this`highScore, this`newHighScore, this`medalId,
        this`state, this`pipeScrollingSpeed, this`landScrollingSpeed, this`playButton, this`tweens
      ensures collided == Colliding(birdie, pipePairs, height, sprites)
      ensures Valid() && state != Loading
      ensures state == if collided then GameOver else old(state)
      ensures !collided || old(state) == GameOver ==>
        pipeScrollingSpeed == old(pipeScrollingSpeed) && landScrollingSpeed == old(landScrollingSpeed) &&
        playButton == old(playButton)
      ensures collided && old(state) != GameOver ==>
        pipeScrollingSpeed == 0.0 && landScrollingSpeed == 0.0 && playButton == old(playButton).(y := ButtonY(height, sprites))
      ensures (highScore, newHighScore, medalId) ==
        if collided && old(state) != GameOver then Record(score, old(highScore), old(newHighScore), old(medalId)) else (old(highScore), old(newHighScore), old(medalId))
      ensures tweens == AfterCollision(old(tweens), collided && old(state) != GameOver, now)
      ensures Shows() == old(Shows())
    {
      collided := IsBirdieColliding();
      if collided {
        HandleBirdieCollision(now);
      }
    }

    /**
     * `onUIEvent`: the reaction `React` chooses, carried out.  `prevented`
     * tells whether the event's default action was cancelled.  A release on
     * the button starts a game; a press in START starts play.  A release
     * whose `changeState(START)` throws (`StopAllThrows`) ends before
     * `preventDefault`.
     */
    method OnUIEvent(e: Input.RawEvent, now: int, draws: seq<real>) returns (prevented: bool)
      requires Valid() && state != Loading && e.kind != Input.Other
      requires Unit(draws) && |draws| > pipePairsRequired
      modifies this`state, this`landTilesX, this`landScrollingSpeed, this`pipeScrollingSpeed, this`g,
        this`playButton, this`birdie, this`displayScore, this`score, this`newHighScore, this`medalId,
        this`pipePairs, this`pipePairAheadId, this`tweens, this`flapThisFrame
      ensures Valid() && state != Loading
      ensures var r := React(e, old(state), old(playButton), sprites, old(birdie.y));
        var fails := r == ButtonRelease && old(StopAllThrows());
        && (prevented <==> r != Ignore && !fails)
        && (r == Ignore ==> unchanged(this))
        && (r == ButtonPress ==>
              playButton == old(playButton).(y := old(playButton).y + 2.0) &&
              state == old(state) && tweens == old(tweens) && flapThisFrame == old(flapThisFrame))
        && (r == ButtonRelease ==>
              state == (if fails then old(state) else Start) &&
              playButton == old(playButton).(y := old(playButton).y - 2.0, displayed := false) &&
              flapThisFrame == old(flapThisFrame))
        && (r == ButtonRelease && !fails ==> score == 0)
        && (r.Action? ==> (flapThisFrame <==> old(flapThisFrame) || r.flap))
        && (r.Action? ==> state == if r.begin then Playing else old(state))
        && (r.Action? && !r.begin ==> tweens == old(tweens) && birdie == old(birdie))
        && (r.Action? ==> playButton == old(playButton))
      // Only the button moves on a press or an action that does not begin play.
      ensures var r := React(e, old(state), old(playButton), sprites, old(birdie.y));
        r == ButtonPress || (r.Action? && !r.begin) ==>
          && (birdie, g, pipeScrollingSpeed, landScrollingSpeed, displayScore) ==
             old((birdie, g, pipeScrollingSpeed, landScrollingSpeed, displayScore))
          && (score, newHighScore, medalId, pipePairs, pipePairAheadId, landTilesX) ==
             old((score, newHighScore, medalId, pipePairs, pipePairAheadId, landTilesX))
      // A release on the button enters START: everything `changeState(START)` resets.
      ensures React(e, old(state), old(playButton), sprites, old(birdie.y)) == ButtonRelease && !old(StopAllThrows()) ==>
        && (forall id :: 0 <= id < TWEENS ==> tweens[id] == EntryTween(Start, id, old(tweens[id]), now))
        && birdie == StartBirdie(old(birdie), width, height, sprites, old(state) != Start, draws[0])
        && landScrollingSpeed == SCROLLING_SPEED && displayScore && !newHighScore && medalId.None?
        && |pipePairs| == pipePairsRequired && pipePairAheadId == 0
        && (forall i :: 0 <= i < |pipePairs| ==> pipePairs[i] == StartPipe(width, pipeMaxMid, i, draws[i + 1]))
        && g == old(g) && pipeScrollingSpeed == old(pipeScrollingSpeed) && landTilesX == old(landTilesX)
      // A release before the first START with the score panel registered: only the tweens stop.
      ensures React(e, old(state), old(playButton), sprites, old(birdie.y)) == ButtonRelease && old(StopAllThrows()) ==>
        && (forall id :: 0 <= id < TWEENS ==> tweens[id] == StopIfRunning(old(tweens[id])))
        && (birdie, g, pipeScrollingSpeed, landScrollingSpeed, displayScore) ==
           old((birdie, g, pipeScrollingSpeed, landScrollingSpeed, displayScore))
        && (score, newHighScore, medalId, pipePairs, pipePairAheadId, landTilesX) ==
           old((score, newHighScore, medalId, pipePairs, pipePairAheadId, landTilesX))
      // An action that begins play enters PLAYING: the bobbing stops, gravity and scrolling start.
      ensures var r := React(e, old(state), old(playButton), sprites, old(birdie.y));
        r.Action? && r.begin ==>
          && (forall id :: 0 <= id < TWEENS ==> tweens[id] == EntryTween(Playing, id, old(tweens[id]), now))
          && birdie == old(birdie).(frameTime := 60)
          && g == G && pipeScrollingSpeed == SCROLLING_SPEED && landScrollingSpeed == SCROLLING_SPEED
          && displayScore == old(displayScore)
          && (score, newHighScore, medalId, pipePairs, pipePairAheadId, landTilesX) ==
             old((score, newHighScore, medalId, pipePairs, pipePairAheadId, landTilesX))
    {
      var ae := Input.GetAbstractUIEvent(e).value;
      if !Input.Accepted(e, ae) {
        return false;
      }
      prevented := false;
      if playButton.displayed {
        if ae.Keyboard? || ButtonHit(playButton, sprites, ae.x, ae.y) {
          if ae.moment == Input.Start {
            playButton := playButton.(y := playButton.y + 2.0);
          } else {
            playButton := playButton.(y := playButton.y - 2.0, displayed := false);
            var ok := ChangeState(Start, now, draws);
            if !ok {
              return false;
            }
          }
          prevented := true;
        }
      } else if ae.moment == Input.Start {
        if (state == Start || state == Playing) && birdie.y >= 0.0 {
          flapThisFrame := true;
        }
        if state == Start {
          var _ := ChangeState(Playing, now, draws);
        }
        prevented := true;
      }
    }

    /** `(t - lastFrameTime) / 1000`: the seconds since the previous tick, 0 on the first. */
    function Delta(last: Option<int>, now: int): real {
      (now - last.GetOr(now)) as real / 1000.0
    }

    /**
     * `update`: one tick at time `now`.  The land scrolls and the bird moves;
     * from START on the pipes scroll and the score is updated; a collision
     * ends the game; the tweens are updated and their callbacks performed.
     * A tick that would read the pair ahead when there are no pipe pairs
     * (after HOME ended straight in GAMEOVER) throws in `game.js`, which
     * stops the loop: `halted` is set and later ticks do nothing.
     */
    method Step(now: int, draws: seq<real>)
      requires Valid() && state != Loading
      requires Unit(draws) && |pipePairs| <= |draws|
      modifies this`t, this`lastFrameTime, this`dt, this`landTilesX, this`birdie, this`pipePairs, this`score,
        this`pipePairAheadId, this`highScore, this`newHighScore, this`medalId, this`state, this`pipeScrollingSpeed,
        this`landScrollingSpeed, this`playButton, this`tweens, this`displayScore, this`flapThisFrame, this`halted
      ensures Valid() && state != Loading
      ensures old(halted) ==> unchanged(this)
      ensures halted <==> old(halted) || (old(state).Ord() >= Start.Ord() && old(pipePairs) == [])
      ensures !old(halted) ==> t == now && dt == Delta(old(lastFrameTime), now)
      ensures !old(halted) ==> landTilesX == ScrollLand(old(landTilesX), Distance(old(landScrollingSpeed), dt))
      ensures !old(halted) ==> birdie == old(MovedBy(Delta(lastFrameTime, now), now)).(y := birdie.y)
      ensures !old(halted) && old(state).Ord() >= Start.Ord() ==>
        pipePairs == ScrollPipes(old(pipePairs), Distance(old(pipeScrollingSpeed), dt), PIPE_MIN_MID, pipeMaxMid, draws)
      ensures old(state).Ord() < Start.Ord() ==> pipePairs == old(pipePairs)
      // The score and the pointer are checked against the scrolled pairs and the moved bird.
      ensures !halted && old(state).Ord() >= Start.Ord() ==>
        (score, pipePairAheadId) ==
        ScoreAfter(old(MovedBy(Delta(lastFrameTime, now), now)), pipePairs, old(pipePairAheadId), old(score))
      ensures halted || old(state).Ord() < Start.Ord() ==> score == old(score) && pipePairAheadId == old(pipePairAheadId)
      ensures old(score) <= score <= old(score) + 1
      // Then the collision check, on the moved bird and the scrolled pairs.
      ensures !halted ==>
        state == if Colliding(old(MovedBy(Delta(lastFrameTime, now), now)), pipePairs, height, sprites) then GameOver else old(state)
      ensures !halted ==>
        var hit := Colliding(old(MovedBy(Delta(lastFrameTime, now), now)), pipePairs, height, sprites) && old(state) != GameOver;
        && (highScore, newHighScore, medalId) == (if hit then Record(score, old(highScore), old(newHighScore), old(medalId)) else (old(highScore), old(newHighScore), old(medalId)))
        // Then the tweens, after any the collision started, and their callbacks.
        && (tweens, Shows()) == Animated(configs, AfterCollision(old(tweens), hit, now),
             Shown(old(MovedBy(Delta(lastFrameTime, now), now)).y, old(displayScore), old(playButton).displayed), now)
        // A hit stops both scrolls and puts the button back at rest.
        && (pipeScrollingSpeed, landScrollingSpeed) ==
           (if hit then (0.0, 0.0) else (old(pipeScrollingSpeed), old(landScrollingSpeed)))
        && playButton == (if hit then old(playButton).(y := ButtonY(height, sprites)) else old(playButton)).(displayed := playButton.displayed)
      ensures halted ==>
        state == old(state) && tweens == old(tweens) && displayScore == old(displayScore) &&
        (highScore, newHighScore, medalId) == (old(highScore), old(newHighScore), old(medalId)) &&
        (pipeScrollingSpeed, landScrollingSpeed, playButton) == (old(pipeScrollingSpeed), old(landScrollingSpeed), old(playButton))
      ensures halted && !old(halted) ==> birdie == old(MovedBy(Delta(lastFrameTime, now), now))
      ensures !halted ==> lastFrameTime == Some(now) && !flapThisFrame
      // The only change of state a tick makes is the end of the game, and it happens once.
      ensures state == old(state) || (old(state) != GameOver && state == GameOver)
      ensures old(state) == GameOver ==>
        highScore == old(highScore) && newHighScore == old(newHighScore) && medalId == old(medalId)
    {
      if halted {
        return;
      }
      BeginFrame(now);
      RunTick(now, draws);
    }

    /** `update` once the clock has been read. */
    method RunTick(now: int, draws: seq<real>)
      requires Valid() && state != Loading && !halted
      requires Unit(draws) && |pipePairs| <= |draws|
      modifies this`lastFrameTime, this`landTilesX, this`birdie, this`pipePairs, this`score,
        this`pipePairAheadId, this`highScore, this`newHighScore, this`medalId, this`state, this`pipeScrollingSpeed,
        this`landScrollingSpeed, this`playButton, this`tweens, this`displayScore, this`flapThisFrame, this`halted
      ensures Valid() && state != Loading
      ensures halted <==> old(state).Ord() >= Start.Ord() && old(pipePairs) == []
      ensures landTilesX == ScrollLand(old(landTilesX), old(LandShift()))
      ensures birdie == old(MovedBy(dt, t)).(y := birdie.y)
      ensures old(state).Ord() >= Start.Ord() ==>
        pipePairs == ScrollPipes(old(pipePairs), old(PipeShift()), PIPE_MIN_MID, pipeMaxMid, draws)
      ensures old(state).Ord() < Start.Ord() ==> pipePairs == old(pipePairs)
      ensures !halted && old(state).Ord() >= Start.Ord() ==>
        (score, pipePairAheadId) == ScoreAfter(old(MovedBy(dt, t)), pipePairs, old(pipePairAheadId), old(score))
      ensures halted || old(state).Ord() < Start.Ord() ==> score == old(score) && pipePairAheadId == old(pipePairAheadId)
      ensures !halted ==> state == if Colliding(old(MovedBy(dt, t)), pipePairs, height, sprites) then GameOver else old(state)
      ensures !halted ==>
        var hit := Colliding(old(MovedBy(dt, t)), pipePairs, height, sprites) && old(state) != GameOver;
        && (highScore, newHighScore, medalId) == (if hit then Record(score, old(highScore), old(newHighScore), old(medalId)) else (old(highScore), old(newHighScore), old(medalId)))
        && (tweens, Shows()) == Animated(configs, AfterCollision(old(tweens), hit, now),
             Shown(old(MovedBy(dt, t)).y, old(displayScore), old(playButton).displayed), now)
        && (pipeScrollingSpeed, landScrollingSpeed) ==
           (if hit then (0.0, 0.0) else (old(pipeScrollingSpeed), old(landScrollingSpeed)))
        && playButton == (if hit then old(playButton).(y := ButtonY(height, sprites)) else old(playButton)).(displayed := playButton.displayed)
      ensures halted ==>
        state == old(state) && tweens == old(tweens) && displayScore == old(displayScore) && birdie == old(MovedBy(dt, t)) &&
        (highScore, newHighScore, medalId) == (old(highScore), old(newHighScore), old(medalId)) &&
        (pipeScrollingSpeed, landScrollingSpeed, playButton) == (old(pipeScrollingSpeed), old(landScrollingSpeed), old(playButton))
      ensures !halted ==> lastFrameTime == Some(t) && !flapThisFrame
    {
      var ok := Move(draws);
      if ok {
        assert Shows() == Shown(old(MovedBy(dt, t)).y, old(displayScore), old(playButton).displayed);
        var _ := Settle(now);
      }
    }

    /** The clock reads of `update`: the time of this tick and the seconds since the last one. */
    method BeginFrame(now: int)
      modifies this`t, this`lastFrameTime, this`dt
      ensures t == now && dt == Delta(old(lastFrameTime), now)
      ensures lastFrameTime == Some(old(lastFrameTime).GetOr(now))
    {
      t := now;
      if lastFrameTime.None? {
        lastFrameTime := Some(t);
      }
      dt := (t - lastFrameTime.value) as real / 1000.0;
    }

    /**
     * The first part of `update`: land, bird, and from START on the pipes
     * and the score; `ok` is false when the tick throws for want of pipes.
     */
    method Move(draws: seq<real>) returns (ok: bool)
      requires Valid() && state != Loading && !halted
      requires Unit(draws) && |pipePairs| <= |draws|
      modifies this`landTilesX, this`birdie, this`pipePairs, this`score, this`pipePairAheadId, this`halted
      ensures Valid()
      ensures landTilesX == ScrollLand(old(landTilesX), old(LandShift()))
      ensures birdie == old(MovedBy(dt, t))
      ensures state.Ord() >= Start.Ord() ==>
        pipePairs == ScrollPipes(old(pipePairs), old(PipeShift()), PIPE_MIN_MID, pipeMaxMid, draws)
      ensures state.Ord() < Start.Ord() ==> pipePairs == old(pipePairs) && score == old(score)
      ensures old(score) <= score <= old(score) + 1
      ensures halted <==> state.Ord() >= Start.Ord() && old(pipePairs) == []
      ensures ok <==> !halted
      ensures !halted && state.Ord() >= Start.Ord() ==>
        (score, pipePairAheadId) == ScoreAfter(birdie, pipePairs, old(pipePairAheadId), old(score))
      ensures halted || state.Ord() < Start.Ord() ==> score == old(score) && pipePairAheadId == old(pipePairAheadId)
    {
      UpdateLand();
      UpdateBirdie();
      ok := true;
      if state.Ord() >= Start.Ord() {
        ok := ScrollAndScore(draws);
      }
    }

    /**
     * The pipes and the score, from START on.  With no pipe pairs, reading
     * the pair ahead throws: `halted` is set and `ok` is false.
     */
    method ScrollAndScore(draws: seq<real>) returns (ok: bool)
      requires Unit(draws) && |pipePairs| <= |draws| && !halted
      requires pipePairs == [] || (|pipePairs| == pipePairsRequired && pipePairAheadId < |pipePairs|)
      modifies this`pipePairs, this`score, this`pipePairAheadId, this`halted
      ensures pipePairs == ScrollPipes(old(pipePairs), old(PipeShift()), PIPE_MIN_MID, pipeMaxMid, draws)
      ensures pipePairs == [] || (|pipePairs| == pipePairsRequired && pipePairAheadId < |pipePairs|)
      ensures old(score) <= score <= old(score) + 1
      ensures ok <==> !halted
      ensures halted <==> old(pipePairs) == []
      ensures !halted ==> (score, pipePairAheadId) == ScoreAfter(birdie, pipePairs, old(pipePairAheadId), old(score))
      ensures halted ==> score == old(score) && pipePairAheadId == old(pipePairAheadId)
    {
      UpdatePipePairs(draws);
      if pipePairs == [] {
        halted := true;
        return false;
      }
      UpdateScore();
      ok := true;
    }

    /**
     * The rest of `update`: the collision check, the tweens (`updateAll`
     * inside `draw`) and their callbacks, and the end of the frame.
     */
    method Settle(now: int) returns (collided: bool)
      requires Valid() && state != Loading
      modifies this`highScore, this`newHighScore, this`medalId, this`state, this`pipeScrollingSpeed,
        this`landScrollingSpeed, this`playButton, this`tweens, this`birdie, this`displayScore,
        this`flapThisFrame, this`lastFrameTime
      ensures collided == Colliding(old(birdie), pipePairs, height, sprites)
      ensures Valid() && state != Loading
      ensures state == if collided then GameOver else old(state)
      ensures var hit := collided && old(state) != GameOver;
        && (highScore, newHighScore, medalId) == (if hit then Record(score, old(highScore), old(newHighScore), old(medalId)) else (old(highScore), old(newHighScore), old(medalId)))
        && (tweens, Shows()) == Animated(configs, AfterCollision(old(tweens), hit, now), old(Shows()), now)
        && (pipeScrollingSpeed, landScrollingSpeed) ==
           (if hit then (0.0, 0.0) else (old(pipeScrollingSpeed), old(landScrollingSpeed)))
        && playButton == (if hit then old(playButton).(y := ButtonY(height, sprites)) else old(playButton)).(displayed := playButton.displayed)
      ensures birdie == old(birdie).(y := birdie.y)
      ensures lastFrameTime == Some(t) && !flapThisFrame
    {
      collided := CheckBirdieCollision(now);
      ghost var shown := Shows();
      assert shown == old(Shows());
      Animate(now);
      flapThisFrame := false;
      lastFrameTime := Some(t);
    }

    /** `Animation.updateAll` inside `draw`, with the effects of the callbacks it ran. */
    method Animate(now: int)
      requires Valid()
      modifies this`tweens, this`birdie, this`displayScore, this`playButton
      ensures Valid()
      ensures (tweens, Shows()) == Animated(configs, old(tweens), old(Shows()), now)
      ensures birdie == old(birdie).(y := birdie.y) && playButton == old(playButton).(displayed := playButton.displayed)
    {
      var calls := UpdateAll(now);
      ApplyCalls(calls);
    }

    /**
     * `new FlappyBird(width, height)` once its assets have loaded
     * (`onAssetsLoaded`): the canvas arithmetic of `setCanvasSize`, the six
     * tweens of `setUpAnimations`, and the move to HOME.  Until then the bird,
     * the button and the land are `null`; here they hold placeholders.
     */
    constructor (requestedWidth: nat, requestedHeight: nat, sprites: Sprites, storedHighScore: nat, now: int, draws: seq<real>)
      requires Unit(draws) && |draws| > Required(requestedWidth, PIPE_DISTANCE)
      ensures Configured() && Valid() && state == Home && !halted
      ensures width == requestedWidth && height == CanvasHeight(requestedHeight) && this.sprites == sprites
      ensures highScore == storedHighScore && pipePairs == [] && lastFrameTime.None? && !flapThisFrame
      ensures birdie == HomeBirdie(width, height, sprites, draws[0]) && playButton.displayed
      ensures forall i :: 0 <= i < |landTilesX| ==> landTilesX[i] == i as real * LAND_WIDTH
      ensures forall id :: 0 <= id < TWEENS ==> (tweens[id].isRunning <==> id == 0)
      ensures tweens[0].startTime == Some(now)
    {
      width := requestedWidth;
      var h := CanvasHeight(requestedHeight);
      height := h;
      this.sprites := sprites;
      pipeMaxMid := PipeMaxMid(h);
      pipePairsRequired := Required(requestedWidth, PIPE_DISTANCE);
      landTilesRequired := Required(requestedWidth, LAND_WIDTH);
      configs := TweenConfigs(h, sprites);
      tweens := [Detached, Detached, Detached, Detached, Detached, Detached];
      state := Loading;
      t := 0;
      dt := 0.0;
      lastFrameTime := None;
      g, pipeScrollingSpeed, landScrollingSpeed := 0.0, 0.0, 0.0;
      birdie := Birdie(0.0, 0.0, 0.0, 0.0, 0.0, 0, 0, 0, None, 0, None, 0.0);
      playButton := PlayButton(0.0, 0.0, false);
      pipePairs := [];
      pipePairAheadId := 0;
      landTilesX := [];
      flapThisFrame := false;
      displayScore := false;
      score := 0;
      newHighScore := false;
      medalId := None;
      highScore := storedHighScore;
      halted := false;
      new;
      var _ := ChangeState(Home, now, draws);
    }
  }
}
