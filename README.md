# Retro tennis (Pong) engine in Dafny

This project models the simulation core of `tennis_game.py`, a two-player Pong game written with
pygame. It covers the paddles, the ball, the match state (scores, game over, winner), the mapping
from keys and events to moves, and the fixed order of one tick of the main loop. It does not model
rendering, the welcome screen, or the dashboard in `app.py`.

The model has two layers.

- `PongSpec` (spec.dfy) gives every operation as a pure function on value snapshots: `PaddleState`,
  `BallState`, `GameState`. `Inv` is the invariant of a running game.
- `PongGame` (game.dfy) gives the classes `Paddle`, `Ball` and `Game`. Their fields are the ones the
  source mutates, and their methods update those fields in place in the source's order. Each method
  is proved to take the object's snapshot `State()` to the value the matching `PongSpec` function
  computes.

The properties are lemmas about the `PongSpec` functions:

- `PaddleProps`: the band a paddle can never leave, and which positions it can reach.
- `BallProps`: the serve, wall bounces, paddle hits and deflection.
- `MatchProps`: scoring, the win check, restart, and freezing after game over.
- `ControlsProps`: event batches, ticks and the main loop.
- `RallyProps`: speed growth over a rally.

Modelling assumptions:

- The two `random.choice([-1, 1])` calls of a serve are a `ServeChoice` parameter. Each tick receives
  one choice for a serve caused by a restart and one for a serve caused by a point. The lemmas
  `ControlsProps.EventsRestart` and `MatchProps.UpdateScoring` show that each of these two causes
  serves at most once per tick.
- `pygame.event.get()` becomes a `seq<Event>` parameter, and `pygame.key.get_pressed()` becomes a
  `Keys` record of the four polled keys.
- Positions and speeds of the ball are exact reals. `* -1.05` and the division of the impact offset
  by `PADDLE_HEIGHT // 2` are computed exactly, with no floating-point rounding.
- The ball's rectangle holds its exact real position. pygame would truncate it to integers.
- `Rect.colliderect` is strict overlap of the open rectangles on both axes (`Geometry.Collide`).
- Integer constants and paddle positions are unbounded `int`s. No value in the source comes near an
  overflow.
- `ResolveCollisions` also returns how many hits it honoured. The source has no such counter. It is
  there only so the rally lemma can state how many hits happened.

Where the code differs from what one might expect of a Pong game, the model follows the code:

- The paddle is not clamped to `[0, SCREEN_HEIGHT - PADDLE_HEIGHT] = [0, 510]`. The guards in
  `move_up` and `move_down` are checked before the step, so the paddle can overshoot by up to
  `PADDLE_SPEED - 1`. It stays in the band `[-6, 516]`. From the start position 255 the reachable
  positions are exactly `255 + 7k` within `[-4, 514]`.
- The impact offset is not confined to `[-1, 1]`. On overlap it lies strictly between `-53/45` and
  `52/45`, because `BALL_SIZE // 2` is 7 and the overlap is measured on the ball's edges. So the
  deflected vertical speed can exceed 8 in magnitude.
- There is no speed cap, and none is added.
- There is no explicit phase variable. The welcome screen is a blocking wait before the loop starts.
  "Playing" and "game over" are the `gameOver` flag.

## Model

| member | source | states |
|---|---|---|
| PongSpec.MoveUp | tennis_game.py:58-62 | `y` drops by exactly PADDLE_SPEED iff `y > 0`, and the rectangle's `y` then follows it; otherwise nothing changes; `x` never changes |
| PongSpec.MoveDown | tennis_game.py:64-68 | `y` grows by exactly PADDLE_SPEED iff `y < SCREEN_HEIGHT - PADDLE_HEIGHT`, and the rectangle follows; otherwise nothing changes; `x` never changes |
| PongGame.Paddle.constructor | tennis_game.py:50-56 | a new paddle has the given position and a rectangle in sync with it |
| PongGame.Paddle.MoveUp | tennis_game.py:58-62 | updating the fields in place has exactly the effect of `PongSpec.MoveUp` |
| PongGame.Paddle.MoveDown | tennis_game.py:64-68 | updating the fields in place has exactly the effect of `PongSpec.MoveDown` |
| PaddleProps.StepKeepsPaddleOk | tennis_game.py:58-68 | one move keeps a paddle in its column, within the band [-6, 516], and with its rectangle in sync |
| PaddleProps.MovesKeepPaddleOk | tennis_game.py:58-68 | every sequence of moves keeps a paddle in the band [-6, 516], in its column, and with its rectangle in sync |
| PaddleProps.MovesFromStartStayReachable | tennis_game.py:58-68 | from a position 255 + 7k in [-4, 514] (such as the start position 255), every move sequence stays at a position 255 + 7k in [-4, 514] |
| PaddleProps.RepeatUp | tennis_game.py:58-62 | holding "up" for n moves subtracts 7n, as long as the guard lets the last move through |
| PaddleProps.RepeatDown | tennis_game.py:64-68 | holding "down" for n moves adds 7n, as long as the guard lets the last move through |
| PaddleProps.ExtremesReachable | tennis_game.py:121-122 | 37 moves from the start position 255 reach -4 going up and 514 going down; both lie outside [0, 510], so the guard is not a clamp |
| PongSpec.BallReset | tennis_game.py:81-91 | the serve puts the ball at (400, 300) with its rectangle there; each speed is +5 or -5, with the sign given by its own choice |
| PongGame.Ball.constructor | tennis_game.py:78-79 | a new ball is served at once |
| PongGame.Ball.Reset | tennis_game.py:81-91 | updating the fields in place has exactly the effect of `PongSpec.BallReset` |
| BallProps.ServeReachesEveryDirection | tennis_game.py:88-91 | the two choices are independent: each of the four combinations of signs is served by some choice |
| PongSpec.BallMove | tennis_game.py:93-102 | x and y each move by exactly their speed, and the rectangle follows; `speed_x` is unchanged; `abs(speed_y)` is unchanged; a non-zero `speed_y` is negated exactly when the new `y <= 0` or `y >= 585` |
| PongGame.Ball.Move | tennis_game.py:93-102 | updating the fields in place has exactly the effect of `PongSpec.BallMove` |
| PongSpec.Bounce | tennis_game.py:168-173 | a hit reverses the horizontal direction and multiplies its magnitude by 1.05; the new `speed_y` is 8*((ball.y + 7) - (paddle.y + 45))/45; position and rectangle are unchanged |
| PongSpec.ResolveCollisions | tennis_game.py:166-182 | 0, 1 or 2 hits are honoured; with no hit the ball is unchanged; position and rectangle never change |
| BallProps.BounceForgetsSpeedY | tennis_game.py:170-173 | the ball after a hit does not depend on its vertical speed before the hit |
| PongSpec.DeflectedSpeedY | tennis_game.py:170-173 | the impact offset times 8, with the centres taken by floor division of the sizes; its range on overlap is stated by `BallProps.DeflectionRange`, and `BallProps.DeflectionCanExceedEight` shows it can exceed 8 |
| BallProps.DeflectionRange | tennis_game.py:170-173 | on overlap the deflected vertical speed lies strictly between -8*53/45 and 8*52/45 |
| BallProps.DeflectionCanExceedEight | tennis_game.py:170-173 | a concrete hit near the paddle's bottom edge, with the ball's rectangle in place and the paddle at a position reachable from the start, gives a vertical speed above 8, so the offset is not confined to [-1, 1] |
| BallProps.ResolveGrowth | tennis_game.py:166-182 | each honoured hit multiplies the horizontal speed's magnitude by 1.05, and nothing else in the collision step changes it |
| BallProps.AtMostOneHit | tennis_game.py:166-182 | with the paddles in their columns and a 15-wide ball, no ball overlaps both paddles, so at most one hit is honoured per update |
| BallProps.LeftHit | tennis_game.py:166-173 | a left hit is honoured exactly on overlap with `speed_x < 0`; then `speed_x` becomes `-1.05*speed_x` (positive) and `speed_y` becomes the offset formula |
| BallProps.RightHit | tennis_game.py:175-182 | the same for the right paddle, with `speed_x > 0`, whose result is negative |
| PongSpec.CheckWinner | tennis_game.py:197-204 | the game is over afterwards iff it was already over or a score is at least 10; player 1 takes priority; with both scores below 10 nothing changes; only `game_over` and `winner` can change, so `game_over` is never cleared |
| PongGame.Game.CheckWinner | tennis_game.py:197-204 | updating the fields in place has exactly the effect of `PongSpec.CheckWinner` |
| MatchProps.CheckWinnerIdempotent | tennis_game.py:197-204 | checking twice for a winner is the same as checking once |
| PongSpec.AwardPoint | tennis_game.py:185-195 | the scoring player's score goes up by one and the other's stays; the paddles stay; the ball is served again exactly when the win check left the game running, and otherwise stays where it left the screen |
| PongSpec.Update | tennis_game.py:160-195 | a game that is over is unchanged and the paddles never move; `MatchProps.UpdateScoring` gives the scoring and the serve, `MatchProps.UpdatePreservesInv` the invariant, `MatchProps.GameOverFreezes` the freeze |
| PongSpec.InitialGame | tennis_game.py:120-129 | the start of a match; `MatchProps.InitialInv` shows it satisfies the invariant and `MatchProps.ResetGameIsInitial` that a restart returns to it |
| PongSpec.ResetGame | tennis_game.py:206-216 | the restart; `MatchProps.ResetGameIsInitial` shows it equals the start state whenever the paddles are in their columns |
| PongSpec.HandleInput | tennis_game.py:143-158 | the held keys; `MatchProps.HandleInputPreservesInv` shows only the paddles change and they stay in their bands, `MatchProps.GameOverFreezes` that nothing changes once the game is over |
| PongSpec.HandleEvents | tennis_game.py:131-141 | one event batch; `ControlsProps.EventsRunning` gives the returned flag, `ControlsProps.EventsIgnoreAfterStop` the early return, `ControlsProps.EventsRestart` and `ControlsProps.EventsWhilePlaying` the restart |
| PongSpec.Tick | tennis_game.py:275-277 | one pass of the main loop; `ControlsProps.TickPreservesInv` gives the invariant and `ControlsProps.TickFrozenUntilRestart` the freeze |
| PongSpec.Run | tennis_game.py:274-279 | the main loop; it runs at most as many ticks as it is given, and `ControlsProps.RunIsPlayPrefix` shows it runs them in order up to and including the first that asks to stop |
| MatchProps.GameOverFreezes | tennis_game.py:143-162 | once the game is over, `handle_input` and `update` change nothing |
| MatchProps.UpdateScoring | tennis_game.py:184-195 | in a running game, a ball ending at `x <= 0` gives a point to player 2 and one ending at `x >= 800` gives a point to player 1; at most one point is scored per update; the paddles do not move; the ball is served again exactly when a point was scored and the game did not end; with no point, only the ball changes |
| MatchProps.UpdatePreservesInv | tennis_game.py:160-204 | an update keeps the invariant: both scores at most 10, not both 10, game over exactly when one is 10, the winner is that side, and the ball's rectangle follows the ball |
| MatchProps.HandleInputPreservesInv | tennis_game.py:143-158 | the held keys keep the invariant, paddles in their bands included, and change only the paddles |
| MatchProps.InitialInv | tennis_game.py:120-129 | the new game satisfies the invariant: paddles at 255 within the band, and scores 0:0 |
| MatchProps.ResetGameIsInitial | tennis_game.py:206-216 | a restart yields exactly the state of a new game: scores 0:0, not over, no winner, a fresh serve, both paddles at 255 with synced rectangles |
| MatchProps.WinThenRestart | tennis_game.py:191-216 | from 9:3, a ball leaving on the right gives 10:3, game over, winner player 1, and no new serve; one Space then restarts to a new game |
| PongGame.Game.constructor | tennis_game.py:120-129 | the new game object is in the state `PongSpec.InitialGame` describes |
| PongGame.Game.HandleEvents | tennis_game.py:131-141 | the loop over the batch, with its early return, has exactly the effect and the result of `PongSpec.HandleEvents` |
| PongGame.Game.HandleInput | tennis_game.py:143-158 | the four key checks move the paddles in place exactly as `PongSpec.HandleInput` |
| PongGame.Game.Update | tennis_game.py:160-195 | the in-place step has exactly the effect of `PongSpec.Update` |
| PongGame.Game.CheckHit | tennis_game.py:166-182 | one collision block changes the ball exactly as an honoured `PongSpec.Bounce` does, and otherwise leaves it alone |
| PongGame.Game.ScorePoint | tennis_game.py:185-195 | one scoring block has exactly the effect of `PongSpec.AwardPoint` |
| PongGame.Game.ResetGame | tennis_game.py:206-216 | the in-place restart has exactly the effect of `PongSpec.ResetGame` |
| PongGame.Game.Tick | tennis_game.py:275-277 | events, then input, then update, with exactly the effect and result of `PongSpec.Tick` |
| PongGame.Game.Run | tennis_game.py:274-279 | the main loop has exactly the tick count and final state of `PongSpec.Run` |
| ControlsProps.EventsRunning | tennis_game.py:133-141 | the batch returns true exactly when it contains no QUIT and no ESC |
| ControlsProps.EventsIgnoreAfterStop | tennis_game.py:133-138 | everything after the first QUIT or ESC in a batch is ignored |
| ControlsProps.EventsWhilePlaying | tennis_game.py:139-140 | while the game runs, no batch changes its state; Space restarts only a game that is over |
| ControlsProps.EventsRestart | tennis_game.py:131-141 | a batch yields a new game exactly when the game is over and a Space comes before any QUIT or ESC; otherwise the state is unchanged; so at most one restart takes effect per batch |
| ControlsProps.SecondSpaceIsNoOp | tennis_game.py:139-140 | a second Space in the same batch does nothing |
| ControlsProps.TickFrozenUntilRestart | tennis_game.py:274-277 | a game that is over stays unchanged through a whole tick unless that tick asks for a restart |
| ControlsProps.TickPreservesInv | tennis_game.py:274-277 | one tick (events, input, update) keeps the invariant |
| ControlsProps.PlayPreservesInv | tennis_game.py:274-277 | any number of ticks keeps the invariant |
| ControlsProps.RunIsPlayPrefix | tennis_game.py:274-279 | the loop runs the ticks in order, up to and including the first one whose events asked to stop; every earlier tick asked to go on; if ticks are left over, the last tick run asked to stop |
| ControlsProps.RunKeepsScoresBounded | tennis_game.py:274-279 | in any run from a new game, both scores stay at most 10 and at most one of them reaches 10 |
| RallyProps.TickSpeed | tennis_game.py:166-182 | in a tick with no serve, the horizontal speed's magnitude is multiplied by 1.05 once per honoured hit, and is otherwise unchanged |
| RallyProps.RallySpeed | tennis_game.py:166-182 | over a run of ticks with no serve and K hits, the horizontal speed's magnitude is multiplied by 1.05 K times |
| RallyProps.ServedRallySpeed | tennis_game.py:166-182 | starting from a serve, K hits with no serve in between give `abs(speed_x) == 5 * 1.05^K` |

## Left out

- Drawing: `Paddle.draw`, `Ball.draw`, `Game.draw` and the text layout of the welcome screen. They are pygame rendering and change no game state.
- The welcome screen's wait loop, `clock.tick(FPS)`, `pygame.init`, `pygame.quit`, `sys.exit`, and the window, clock and fonts created in `Game.__init__`. These are event polling, frame pacing and process control. A quit on the welcome screen ends the process before the first tick; the welcome screen changes no game state.
- `pygame.event.get`, `pygame.key.get_pressed` and `random.choice`. They are replaced by explicit event, key and serve-choice parameters.
- IEEE floating-point rounding of `* -1.05` and of the offset division, and pygame `Rect`'s truncation of the ball's float coordinates. Reals are exact and the ball's rectangle is not truncated. Truncation can shift a collision by less than one pixel.
- PongGame.Game.Run: the source loop runs until a quit. The model runs over a finite sequence of tick inputs and also stops when that sequence is exhausted.
- `app.py`, the dashboard. It is CSV parsing, aggregation and charting through libraries that are not part of this model, and an HTTP server.
