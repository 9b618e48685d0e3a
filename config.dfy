/** The fixed constants of the retro tennis game (tennis_game.py, lines 24-44),
    together with the positions the game derives from them. */
module PongConfig {

  const SCREEN_WIDTH: int := 800
  const SCREEN_HEIGHT: int := 600

  const PADDLE_WIDTH: int := 15
  const PADDLE_HEIGHT: int := 90
  const PADDLE_SPEED: int := 7

  const BALL_SIZE: int := 15
  const BALL_SPEED_X: int := 5
  const BALL_SPEED_Y: int := 5

  const WINNING_SCORE: int := 10

  /** Factor by which a paddle hit scales the horizontal speed (the source writes `*= -1.05`). */
  const SPEED_GROWTH: real := 1.05
  /** Factor turning the normalised impact offset into vertical speed (`offset * 8`). */
  const DEFLECTION: real := 8.0

  /** Left edge of player 1's paddle and of player 2's paddle. */
  const LEFT_PADDLE_X: int := 30
  const RIGHT_PADDLE_X: int := SCREEN_WIDTH - 30 - PADDLE_WIDTH

  /** Vertical start (and restart) position of both paddles: `SCREEN_HEIGHT // 2 - PADDLE_HEIGHT // 2`.
      The operands are positive, so Dafny's `/` agrees with Python's `//` here. */
  const PADDLE_START_Y: int := SCREEN_HEIGHT / 2 - PADDLE_HEIGHT / 2

  /** Extremes of the band a paddle can never leave: the guards of `move_up` and
      `move_down` let it overshoot 0 and SCREEN_HEIGHT - PADDLE_HEIGHT by up to PADDLE_SPEED - 1. */
  const BAND_LOW: int := 1 - PADDLE_SPEED
  const BAND_HIGH: int := SCREEN_HEIGHT - PADDLE_HEIGHT + PADDLE_SPEED - 1
}
