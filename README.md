# Flappy Bird (web): the game simulation in Dafny

This project models the simulation core of a browser Flappy Bird clone:
`static/scripts/game.js`, the `FlappyBird` game object and the `Animation`
tween engine it relies on. Nothing that draws, plays sound or talks to the
DOM is modelled.

- **`Tween`** (tween.dfy) is the `Animation` engine.
  - Pure functions state one call of each operation: `StartSpec` for `start`, `StopSpec` for `stop`, `Advance`/`Animate` for `update`.
  - `update` covers the delay, the deferred start callback, the triangle-wave folding of the phase, the iteration limit, the "sticks" policy and linear interpolation.
  - The classes `Tween` (an `Animation` object) and `Registry` (`Animation._list` and `_idCounter`) are proved to follow those functions.
  - Callbacks are labels. An operation returns the calls it made, in order, with the values each call received.
- **`Ring`** (ring.dfy) covers `updateLand` and `updatePipePairs`: left-to-right passes that recycle slots that have left the screen.
- **`Physics`** (physics.dfy) covers `updateBirdie` and `updateBirdieAngle`: flap or gravity, the time of a direction change, the floor clamp, the tilt clamp and the wing-frame cycle.
- **`Geometry`** (geometry.dfy) covers `collide`, `getBirdieBoundingBox` and `getPipeData`, plus the play-button hit test.
- **`Scoring`** (scoring.dfy) covers the medal thresholds of `onGameOver` and the circular pointer of `updateScore`.
- **`Input`** (input.dfy) covers `getAbstractUIEvent`.
- **`Basics`** (basics.dfy) holds `sign`, `uniformRandom`, `Math.ceil` and `Math.max`.
- **`Game`** (game.dfy) holds the canvas arithmetic of `setCanvasSize` and the six tweens of `setUpAnimations`. It also holds the class `FlappyBird`, which contains:
  - `changeState` and its entry actions;
  - `startStateAnimations`;
  - `onUIEvent`;
  - the per-tick `update` (`Step`), composed from `updateLand`, `updateBirdie`, `updatePipePairs`, `updateScore`, `checkBirdieCollision`, `onGameOver` and `Animation.updateAll`.

The host environment becomes explicit inputs:

- The clock becomes an argument `now`, in integer milliseconds. `update` (game.js:918), `Animation.start` (game.js:73) and `Animation.update` (game.js:89) each read `new Date()` separately. The model gives all the reads of one tick, or of one event, the same `now`, so no time passes between them.
- `Math.random()` becomes a supply `draws` of numbers in [0, 1).
- The high score kept in `localStorage` becomes the field `highScore`.
- Positions, speeds, angles and tween values are `real`.

Behaviours of `game.js` that a reader may not expect. The model follows the code in each case:

- A sticking tween past its last iteration runs its end callback on **every** later `update`, not only the first time.
  - `StickyEnd` states this.
- `update` checks for a collision in **every** state, HOME included, not only from START on.
  - If HOME ends in GAMEOVER that way, there are no pipe pairs. The next tick's `updateScore` then reads a field of a missing pair and throws. That ends the `requestAnimationFrame` loop.
  - The model records this as the flag `halted`. After it is set, `Step` does nothing (see `FlappyBird.Step`).
  - A release on the button in that GAMEOVER throws as well. `changeState(START)` begins with `stopAll`, and the score panel's end callback then draws the medal `undefined`, a tile that does not exist. The panel is already stopped at that point, and so are the five tweens before it. The state stays GAMEOVER, the button stays hidden, and `preventDefault` is never reached.
  - The model gives `StopAll`, `EnterStart` and `ChangeState` a result `ok`, which is false exactly then (`StopAllThrows`). `OnUIEvent` states the whole outcome.
- `updatePipePairs` moves a recycled slot 0 behind the last slot as it was **before** this tick's scroll. The gap there is `PIPE_DISTANCE` plus one tick's shift.
  - `ScrollPipesSlot` states this.

## Model

| member | source | states |
|---|---|---|
| Basics.Sign | static/scripts/game.js:19-21 | the result is -1, 0 or 1, positive exactly for positive input and negative exactly for negative input |
| Basics.Ceil | static/scripts/game.js:295-296 | `Math.ceil`: the least integer not below `x` |
| Basics.UniformRandom | static/scripts/game.js:11-13 | with `Math.random()` in [0, 1) and ordered bounds, the draw lies between the bounds, both included |
| Basics.UniformRandomReaches | static/scripts/game.js:11-13 | every integer between the bounds is drawn by some value in [0, 1) |
| Basics.SeqMax | static/scripts/game.js:832 | `Math.max.apply`: an element of the array that no element exceeds |
| Entities.State.Ord | static/scripts/game.js:218 | the numeric codes of the states, at most 4, by which the game compares them |
| Geometry.CollideSymmetric | static/scripts/game.js:978-983 | `collide(a, b) == collide(b, a)` |
| Geometry.CollideIffCommonPoint | static/scripts/game.js:978-983 | for boxes of non-negative size, `collide` holds exactly when some point lies in both closed boxes |
| Geometry.CollideTouching | static/scripts/game.js:978-983 | boxes that only share an edge collide, so the test is inclusive |
| Geometry.BirdieBoundingBox | static/scripts/game.js:885-892 | the hit box keeps the bird's top and height and is trimmed by 4 pixels on the left and 6 on the right |
| Geometry.PipeData | static/scripts/game.js:1136-1151 | both pipes start `PIPE_HALF_WIDTH` left of the pair's `x`; the upper pipe ends half a gap above `my` and the lower one starts half a gap below it, each with its sprite's size |
| Geometry.InsideGapMisses | static/scripts/game.js:1136-1151 | a box strictly inside a pair's gap, vertically, collides with neither pipe |
| Input.GetAbstractUIEvent | static/scripts/game.js:666-702 | `null` exactly for unlisted event types; presses are "start" and releases "end"; key events keep the key code; a touch end takes the changed touch's coordinates and other pointer events the layer coordinates |
| Input.PressReleasePair | static/scripts/game.js:669-681 | a press and its matching release are classified as the same kind of event with opposite moments |
| Physics.AngleStep | static/scripts/game.js:814-826 | no change before the first change of direction; otherwise eased against the vertical speed and clamped at -20 when going up and at 90 when coming down |
| Physics.Motion | static/scripts/game.js:839-862 | a flap sets speed `FLAP_FORCE` and direction 1, otherwise gravity applies and the direction is the sign of the speed; a change of direction is timestamped; the bird moves by `-vy*dt` but never below the floor; nothing else of the bird changes |
| Physics.Flutter | static/scripts/game.js:864-879 | frame 1 in GAMEOVER; otherwise the clock starts on frame 0, and after more than `frameTime` ms the frame moves to the next of three, wrapping to 0; otherwise nothing changes |
| Physics.BirdieStepMotion | static/scripts/game.js:838-880 | up to START the bird does not move; past START it never ends below the floor |
| Physics.BirdieStepFrame | static/scripts/game.js:864-879 | the frame always stays in {0, 1, 2} and is 1 in GAMEOVER |
| Physics.BirdieStepAngle | static/scripts/game.js:814-861 | while time does not run backwards, the tilt stays between -20 and 90 degrees across any tick |
| Ring.LandStage | static/scripts/game.js:828-836 | a partial `updateLand` pass keeps the length and leaves the slots it has not reached unchanged |
| Ring.LandStageSettled | static/scripts/game.js:828-836 | a slot written by the pass is not written again later in it |
| Ring.ScrollLandSlot | static/scripts/game.js:828-836 | `updateLand` keeps the length; a tile on screen only shifts by `-shift`; a tile off screen goes one tile width past the rightmost tile as it stood on its turn, then shifts |
| Ring.PipeSlot | static/scripts/game.js:908-914 | one pipe-pair round keeps the length and touches no other slot |
| Ring.PipeStage | static/scripts/game.js:906-915 | a partial `updatePipePairs` pass keeps the length and leaves the slots it has not reached unchanged |
| Ring.PipeStageSettled | static/scripts/game.js:906-915 | a slot written by the pass is not written again later in it |
| Ring.ScrollPipesSlot | static/scripts/game.js:906-915 | `updatePipePairs` keeps the length; a pair still on screen only shifts by `-shift` and keeps its gap; a recycled pair gets its left neighbour's new `x` plus `PIPE_DISTANCE` (slot 0 the last slot's unscrolled `x`) and a gap middle drawn from `[PIPE_MIN_MID, PIPE_MAX_MID]` |
| Scoring.MedalFor | static/scripts/game.js:998-1006 | no medal below 10 points; otherwise medal 3, 2, 1 or 0 from 10, 20, 30 and 40 points |
| Scoring.MedalMonotone | static/scripts/game.js:998-1006 | a higher score never earns a lesser medal |
| Scoring.MedalTens | static/scripts/game.js:998-1006 | from 10 points the medal is 4 minus the number of full tens, capped at 4 |
| Scoring.NextAhead | static/scripts/game.js:899-902 | the pointer to the pair ahead moves to the next slot, wrapping to 0, and stays a valid index |
| Scoring.AheadAfter | static/scripts/game.js:894-904 | after any number of passes the pointer is still a valid index |
| Scoring.AheadAfterMod | static/scripts/game.js:894-904 | after `k` passes the pointer is `(a + k) % n`, so it walks the ring once every `n` passes |
| Tween.Configure | static/scripts/game.js:26-48 | the constructor's defaults: `iterations \|\| 1` (a missing or zero count is 1), `delay \|\| 0`, `sticks` true unless given false; the other options are kept |
| Tween.Folded | static/scripts/game.js:111-119 | the folded phase lies in [0, 1] and equals `t/duration` up to one duration |
| Tween.Phase | static/scripts/game.js:111-129 | the phase lies in [0, 1]; after the last iteration it is `iterations % 2`, otherwise the folded phase |
| Tween.Interpolate | static/scripts/game.js:131-134 | every key of `from` is written, each between its two endpoints; phase 0 gives `from` and phase 1 gives `to` |
| Tween.LerpBetween | static/scripts/game.js:133 | `min + pct*(max - min)` with `pct` in [0, 1] lies between `min` and `max` |
| Tween.EndCalls | static/scripts/game.js:82-84 | the end callback is called exactly when there is one, with the current values |
| Tween.StartSpec | static/scripts/game.js:65-76 | `start` does nothing while running; otherwise the tween runs from `now`, and the start callback fires at once exactly when there is one and no delay |
| Tween.StopSpec | static/scripts/game.js:78-85 | `stop` always clears the running flag and the start time, keeps the values and calls the end callback if there is one |
| Tween.Advance | static/scripts/game.js:87-141 | during the delay only the waiting flag changes and no callback runs; `update` never starts a tween; the deferred start callback fires exactly when due, first; every animated key lands between its endpoints |
| Tween.AdvanceValues | static/scripts/game.js:105-141 | after the delay, when not stopping: the values are interpolated at the phase, and the calls are the due start callback, the update callback and, past the end, the end callback |
| Tween.StickyEnd | static/scripts/game.js:121-141 | past the last iteration a sticking tween keeps running, settles every key on `to` (odd count) or `from` (even count), and its end callback runs right after the update callback |
| Tween.NonStickyEnd | static/scripts/game.js:121-128 | past the last iteration a non-sticking tween is stopped with its values kept; the update callback does not run |
| Tween.FoldedPeriodic | static/scripts/game.js:111-119 | the folded phase repeats every two durations |
| Tween.FoldedMirror | static/scripts/game.js:111-119 | the folded phase is mirror-symmetric around the end of the first iteration (ping-pong) |
| Tween.StartFiringsBound | static/scripts/game.js:105-109 | over any run of updates the deferred start callback fires at most once, and never once fired |
| Tween.StartFiresOnce | static/scripts/game.js:65-109 | per `start`, the start callback runs at most once over the start and the updates that follow, and it has run by the first update past the delay |
| Tween.Tween.constructor | static/scripts/game.js:26-48 | a new tween has the configured defaults, is not running and has no values |
| Tween.Tween.Start | static/scripts/game.js:65-76 | follows `StartSpec`, and registers the tween under its id unless it was running; the registry keeps every entry under its own id, below the counter, and running |
| Tween.Tween.Stop | static/scripts/game.js:78-85 | follows `StopSpec`, and removes the tween's id from the registry, which keeps holding only running tweens under their own ids |
| Tween.Tween.WriteValues | static/scripts/game.js:131-134 | the loop over the keys of `from` writes exactly the interpolated values over the old ones |
| Tween.Tween.Update | static/scripts/game.js:87-141 | follows `Advance`, and removes the tween from the registry exactly when the update stopped it, so the registry still holds only running tweens under their own ids |
| Tween.Tween.AnimateAt | static/scripts/game.js:105-141 | follows `Animate`, and deregisters the tween exactly when it stops, keeping the registry's invariant |
| Tween.Registry.constructor | static/scripts/game.js:50-51 | the registry starts empty with the id counter at 0 |
| Tween.Registry.Allocate | static/scripts/game.js:27 | `_idCounter++` hands out the counter's value and increments it, keeping every registered id below it |
| Tween.Registry.Create | static/scripts/game.js:26-27 | `new Animation`: a fresh tween with the configured defaults, not running, whose id is the counter's old value, which no registered tween has; the counter moves on |
| Game.CanvasHeight | static/scripts/game.js:283-284 | the canvas height is the requested one capped at `MAX_GAME_HEIGHT` |
| Game.Required | static/scripts/game.js:295-296 | `1 + ceil(width / d)` objects `d` apart cover the width, and one fewer would not |
| Game.TweenConfigs | static/scripts/game.js:315-465 | the six tweens of `setUpAnimations` are well formed, none runs a start callback without a delay, and the START bobbing has no end callback |
| Game.PerformEffects | static/scripts/game.js:333-335 | after a list of callback calls the score is shown iff it was and no call hides it; the button is shown iff it was or some call reveals it; without a bobbing call the bird stays put |
| Game.PerformAppend | static/scripts/game.js:333-335 | the callbacks' effects compose: two lists in turn have the effect of their concatenation |
| Game.StopAllShowsPerform | static/scripts/game.js:59-63 | `stopAll` runs the end callbacks of the registered tweens in id order; their effect is that of the call list `StopAllCalls` |
| Game.StopIsStopped | static/scripts/game.js:78-85 | `stop` is `Stopped` together with the end callback |
| Game.StartIsSilent | static/scripts/game.js:65-76 | starting a tween whose start callback is absent or delayed fires no callback |
| Game.ScoreAfter | static/scripts/game.js:894-904 | the score rises by one exactly when the bird's box reaches the pair ahead, and then the pointer moves to `(a + 1) % n`; otherwise score and pointer stay; the pointer stays a valid index |
| Game.Record | static/scripts/game.js:993-1006 | the high score becomes the larger of the stored one and the score; the new-high-score flag is set iff it was or the score beats the stored one; a score of 10 or more replaces the medal by `MedalFor`, a lower one keeps it |
| Game.HomeBirdie | static/scripts/game.js:486-499 | the HOME bird has a colour in {0, 1, 2}, frame 0, no timestamps, no tilt and no speed |
| Game.StartPipe | static/scripts/game.js:537-544 | the `i`th new pair is half a canvas beyond the right edge plus `i` pipe distances, with a gap middle in `[PIPE_MIN_MID, PIPE_MAX_MID]` |
| Game.React | static/scripts/game.js:707-752 | only accepted events count; with the button shown, an accepted key or a pointer inside the button (edges included) presses or releases it; otherwise a press flaps in START or PLAYING while `y >= 0`, and begins play in START |
| Game.ClearOfEverything | static/scripts/game.js:951-971 | a bird above the land and strictly inside every pair's gap does not collide |
| Game.FlappyBird.ApplyCalls | static/scripts/game.js:333-462 | performs the callbacks' effects on the bird's height, the score display and the button, touching nothing else |
| Game.FlappyBird.StartTween | static/scripts/game.js:65-76 | tween `id` becomes `Started` and no callback runs |
| Game.FlappyBird.StopTween | static/scripts/game.js:78-85 | tween `id` becomes `Stopped` and its end callback's effect is performed |
| Game.FlappyBird.StopOne | static/scripts/game.js:78-85 | tween `i` is stopped if it ran; its end callback's effect is performed, unless it is the score panel's callback before the first START, which throws (`ok` false) with nothing shown changed |
| Game.FlappyBird.StopAll | static/scripts/game.js:59-63 | afterwards no tween runs and exactly the running ones were stopped; `ok` is false exactly when `StopAllThrows` (the score panel runs and there are no pipe pairs yet), and then nothing shown has changed; otherwise the end callbacks took effect in id order |
| Game.QuietEnds | static/scripts/game.js:339-462 | tweens whose end callbacks only draw leave what is shown as it was when stopped |
| Game.FlappyBird.UpdateAll | static/scripts/game.js:53-57 | the tweens become `AdvanceRuntimes` of the old ones (every running tween advanced to `now`, the others left alone); the calls are those of `AdvanceAll` in id order |
| Game.FlappyBird.Animate | static/scripts/game.js:53-57 | `updateAll` as `draw` runs it: the tweens and what is shown become `Animated` of the old ones, so the callbacks' effects land on the bird's height, the score display and the button, and nothing else of the bird or the button changes |
| Game.FlappyBird.StartStateAnimations | static/scripts/game.js:632-637 | exactly the tweens of the current state are started |
| Game.FlappyBird.EnterHome | static/scripts/game.js:473-505 | HOME: the land tiles sit side by side from 0, the land scrolls, the button is shown at its resting place, a fresh HOME bird, and the HOME bobbing starts |
| Game.FlappyBird.LayOutLand | static/scripts/game.js:501-503 | `landTilesRequired` tiles, tile `i` at `i * LAND_WIDTH` |
| Game.FlappyBird.EnterStart | static/scripts/game.js:506-548 | `ok` is false exactly when `stopAll` throws (`StopAllThrows`); then every tween is stopped and nothing else changes. Otherwise START: every tween stopped and then the START bobbing started; button hidden; land speed `SCROLLING_SPEED`; score, medal and new-high-score flag reset; the bird reset as `StartBirdie` says (position, frame 0, frame time 130, no timestamps, angle 0, a new colour unless coming from START); a fresh row of pipes with the pointer at 0 |
| Game.FlappyBird.ResetRound | static/scripts/game.js:509-535 | the resets of START between stopping the tweens and laying out the pipes: button hidden, land speed, score flags and medal, and the bird as `StartBirdie` |
| Game.FlappyBird.LayOutPipes | static/scripts/game.js:537-546 | `pipePairsRequired` pairs, pair `i` as `StartPipe` places it, and the pointer at 0 |
| Game.FlappyBird.EnterPlaying | static/scripts/game.js:549-555 | PLAYING: the START bobbing stops; gravity and both scroll speeds are set; the wings beat every 60 ms |
| Game.FlappyBird.EnterGameOver | static/scripts/game.js:556-562 | GAMEOVER: scrolling stops, the button returns to its resting height, and the four GAMEOVER tweens start |
| Game.FlappyBird.ChangeState | static/scripts/game.js:470-568 | `ok` is false exactly when entering START throws in `stopAll` (`StopAllThrows`); then the state, the button, the bird, the speeds, the score and the pipes are kept and every tween is stopped. Otherwise the new state holds; each tween is `EntryTween` of its old value: START stops every running tween, PLAYING stops the START bobbing, then the new state's tweens start; so exactly the tweens of the new state, and those that kept running, are registered. The full new state for each target: HOME gives fresh land, land speed `SCROLLING_SPEED`, the button centred at `ButtonY` and shown, and the HOME bird. START hides the button, sets the land speed, resets the score flags and medal, resets the bird (`StartBirdie`) and lays out the pipes. PLAYING sets gravity and both speeds and sets the bird's frame time to 60, with nothing else of the bird changed. GAMEOVER stops both scrolls and puts the button back at `ButtonY`. Gravity changes only in PLAYING, the pipes' speed only in PLAYING and GAMEOVER, and the land, score and pipes only where listed |
| Game.FlappyBird.UpdateBirdieAngle | static/scripts/game.js:814-826 | the tilt becomes `AngleStep` of the bird and nothing else changes |
| Game.FlappyBird.UpdateBirdie | static/scripts/game.js:838-880 | the bird becomes `BirdieStep` of the old bird and the frame stays in {0, 1, 2} |
| Game.FlappyBird.MoveBirdie | static/scripts/game.js:839-862 | the bird becomes `Motion` of the old bird |
| Game.FlappyBird.AdvanceFrame | static/scripts/game.js:864-879 | the bird becomes `Flutter` of the old bird |
| Game.FlappyBird.UpdateLand | static/scripts/game.js:828-836 | the in-place loop leaves the tiles as `ScrollLand` describes |
| Game.FlappyBird.UpdatePipePairs | static/scripts/game.js:906-915 | the in-place loop leaves the pairs as `ScrollPipes` describes |
| Game.FlappyBird.UpdateScore | static/scripts/game.js:894-904 | when the bird reaches the pair ahead, the score rises by one and the pointer moves to the next pair (wrapping); otherwise nothing changes; the pointer stays in range |
| Game.FlappyBird.IsBirdieColliding | static/scripts/game.js:951-971 | true exactly when the hit box reaches the land or touches either pipe of some pair |
| Game.FlappyBird.RecordScore | static/scripts/game.js:992-1005 | the high score becomes the score only when it is strictly greater, setting the new-high-score flag; a score of 10 or more sets the medal (`Record`) |
| Game.FlappyBird.OnGameOver | static/scripts/game.js:985-1009 | the high score becomes the score only when it is strictly greater, setting the new-high-score flag; a score of 10 or more sets the medal, a lower one leaves it (together: `Record`); then GAMEOVER, with the four GAMEOVER tweens started |
| Game.FlappyBird.HandleBirdieCollision | static/scripts/game.js:1011-1015 | in GAMEOVER nothing changes; otherwise the score is recorded as `Record` says, both scrolling speeds become 0, the button returns to `ButtonY`, the GAMEOVER tweens start and the state is GAMEOVER; what is shown does not change |
| Game.FlappyBird.CheckBirdieCollision | static/scripts/game.js:942-946 | `collided` is `Colliding` of the bird and the pairs; the state becomes GAMEOVER exactly on a collision; a collision outside GAMEOVER records the score (`Record`), stops both scrolls, puts the button back at `ButtonY` and starts the GAMEOVER tweens; otherwise the speeds, the button, the records and the tweens are unchanged |
| Game.FlappyBird.OnUIEvent | static/scripts/game.js:707-752 | carries out `React`: the default action is prevented iff the event is not ignored and is not a release whose `changeState(START)` throws; an ignored event changes nothing; a press moves the button down 2 and changes nothing else; a release moves it up 2 and hides it; if `stopAll` throws (`StopAllThrows`), the state stays, every tween is stopped and nothing else changes; otherwise it enters START with START's full resets (tweens as `EntryTween`, the bird as `StartBirdie`, land speed, score flags, pipes and pointer; gravity, the pipes' speed and the land kept); an action sets the flap and leaves the button alone; an action that does not begin play changes nothing else; one that begins play enters PLAYING (tweens as `EntryTween`, frame time 60, gravity and both speeds set, score and pipes kept) |
| Game.FlappyBird.Step | static/scripts/game.js:917-940 | one tick at `now`, in the code's order: `t` and `dt` from the clock; the land scrolls by `speed * dt`; the bird moves (`BirdieStep`); from START on the pipes scroll (`ScrollPipes`) and then score and pointer follow `ScoreAfter` on the moved bird and the scrolled pairs; then the state becomes GAMEOVER exactly when that bird collides with the land or a scrolled pair, recording the score (`Record`), stopping both scrolls, putting the button back at `ButtonY` and starting the GAMEOVER tweens unless already in GAMEOVER; without such a hit the speeds and the button's position are kept; then tweens and what is shown are `Animated` from the tweens after that; the flap is cleared; with no pairs from START on the tick halts after the bird moved, with the state, tweens, records, speeds and button kept; a halted game stays unchanged |
| Game.FlappyBird.RunTick | static/scripts/game.js:925-937 | the same tick as `Step` once the clock has been read, in terms of `t` and `dt`, including the speeds and the button's position after a hit or none |
| Game.FlappyBird.BeginFrame | static/scripts/game.js:918-922 | `t` is the current time and `dt` the seconds since the last frame, 0 on the first |
| Game.FlappyBird.Move | static/scripts/game.js:925-931 | the land scrolls and the bird becomes `MovedBy(dt, t)`; from START on the pipes scroll and score and pointer follow `ScoreAfter` on the moved bird and the scrolled pairs; before START pipes, score and pointer are unchanged; the tick throws exactly when there are no pairs from START on |
| Game.FlappyBird.ScrollAndScore | static/scripts/game.js:928-931 | the pipes scroll as `ScrollPipes`; with no pairs the score read throws and score and pointer are unchanged; otherwise score and pointer follow `ScoreAfter` on the scrolled pairs |
| Game.FlappyBird.Settle | static/scripts/game.js:933-937 | `collided` is whether the bird collides; the state becomes GAMEOVER exactly then; a collision outside GAMEOVER records the score (`Record`), stops both scrolls and puts the button back at `ButtonY`, and otherwise the speeds and the button's position are kept; tweens and what is shown are `Animated` from the tweens after the collision check; the bird changes only in height; the flap is cleared and the frame time kept |
| Game.FlappyBird.constructor | static/scripts/game.js:306-313 | the canvas arithmetic and tweens as configured, the stored high score, no pipes, the HOME bird and land, and only the HOME bobbing running |

## Left out

- `AssetManager`, image and JSON loading: network I/O. The sprite sizes are a `Sprites` value given to the constructor.
- `playSound`, `getSoundFilename` and the delayed "die" sound in `onGameOver`: audio and a timer, with no effect on the game's state.
- `changeBackground` and the style writes of `setCanvasSize`: they only produce CSS strings and consume a random draw.
- Drawing (`draw`, `drawTile`, `drawRotatedTile`, `drawNumber`, `drawPipes`, `drawBirdie`) and the drawing and shaking bodies of the tween callbacks. These callbacks are the label `Cosmetic`.
- `addEventListeners`, `requestAnimationFrame`, `new Date()`, `localStorage` and `Math.random`: host calls. They are replaced by the `now` and `draws` arguments and the `highScore` field.
- Floating point: the model computes in exact reals, so IEEE-754 rounding is not captured.
- The `null` fields before the assets load (bird, button, land). The constructor fills them with placeholders and moves straight to HOME.
- `g` and `pipeScrollingSpeed` stay `null` until the first PLAYING. The model starts them at 0.0, which agrees with `null * dt`, which is 0 in JavaScript.
- `score`, `medalId`, `newHighScore`, `displayScore` and `pipePairAheadId` are `undefined` until the first START. The model starts them at 0, no medal, false, false and 0. On the path from HOME straight to GAMEOVER, `onGameOver` compares and classifies an `undefined` score; the model's 0 gives the same outcome (no new high score, no medal).
- Game.FlappyBird.UpdateAll: the game holds its six tweens by value, indexed by id. It does not hold them as `Tween` objects in a `Registry`. The registry `Animation._list` is therefore the set of running tweens, not a shared map of object references.
- Game.FlappyBird.Animate: callbacks take effect after all tweens have been updated, not in the middle of the `forEach`. They only write fields no tween reads, so the result is the same.
- Game.FlappyBird.Step: a tick that throws is modelled by the flag `halted`. Which later events the browser would still deliver is not modelled.
- The commented-out older event handler in `onUIEvent`: dead code.
- app.py: a web-server route.
