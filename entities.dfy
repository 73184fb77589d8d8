/**
 * The records of the game (`FlappyBird` in game.js): the state enumeration,
 * the bird, the play button, a pipe pair, and the sprite dimensions the
 * game reads from its sprite sheet.
 */
module Entities {
  import opened Basics

  /** `FlappyBird.State`: LOADING 0, HOME 1, START 2, PLAYING 3, GAMEOVER 4. */
  datatype State = Loading | Home | Start | Playing | GameOver {
    /** The number the game compares states by (`this.state > this.State.START`). */
    function Ord(): (n: nat)
      ensures n <= 4
    {
      match this
      case Loading => 0
      case Home => 1
      case Start => 2
      case Playing => 3
      case GameOver => 4
    }
  }

  /**
   * The sizes of the sprites the simulation depends on: the bird (`bird0_0`),
   * the land strip, both pipes, the play button and the score panel.
   */
  datatype Sprites = Sprites(
    birdWidth: real,
    birdHeight: real,
    landHeight: real,
    pipeDownWidth: real,
    pipeDownHeight: real,
    pipeUpWidth: real,
    pipeUpHeight: real,
    buttonWidth: real,
    buttonHeight: real,
    scorePanelHeight: real)

  /**
   * The `birdie` object.  `lastFrameTime` and `lastDirectionChangeTime` are
   * `null` until first set; `direction` is -1, 0 or 1; `frame` indexes the
   * three wing sprites.
   */
  datatype Birdie = Birdie(
    width: real,
    height: real,
    x: real,
    y: real,
    vy: real,
    version: int,
    frame: nat,
    frameTime: int,
    lastFrameTime: Option<int>,
    direction: int,
    lastDirectionChangeTime: Option<int>,
    angle: real)

  /** The `playButton` object. */
  datatype PlayButton = PlayButton(x: real, y: real, displayed: bool)

  /** One entry of `pipePairs`: the horizontal centre and the vertical middle of the gap. */
  datatype PipePair = PipePair(x: real, my: int)
}
