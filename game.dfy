/** The game's objects, updated in place as in tennis_game.py. Every method is
    proved to take the snapshot given by `State()` to the value the matching
    function of PongSpec computes. */
module PongGame {
  import opened PongConfig
  import opened Geometry
  import opened PongSpec

  /** A player's paddle (tennis_game.py:47-68). */
  class Paddle {
    const x: int
    var y: int
    const width: int := PADDLE_WIDTH
    const height: int := PADDLE_HEIGHT
    const speed: int := PADDLE_SPEED
    var rect: Rect

    function State(): PaddleState
      reads this
    {
      PaddleState(x, y, rect)
    }

    constructor (x0: int, y0: int)
      ensures State() == NewPaddle(x0, y0)
    {
      x := x0;
      y := y0;
      rect := Rect(x0 as real, y0 as real, PADDLE_WIDTH as real, PADDLE_HEIGHT as real);
    }

    method MoveUp()
      modifies this
      ensures State() == PongSpec.MoveUp(old(State()))
    {
      if y > 0 {
        y := y - speed;
        rect := rect.(y := y as real);
      }
    }

    method MoveDown()
      modifies this
      ensures State() == PongSpec.MoveDown(old(State()))
    {
      if y < SCREEN_HEIGHT - height {
        y := y + speed;
        rect := rect.(y := y as real);
      }
    }
  }

  /** The ball (tennis_game.py:75-102). */
  class Ball {
    var x: real
    var y: real
    const size: int := BALL_SIZE
    var rect: Rect
    var speedX: real
    var speedY: real

    function State(): BallState
      reads this
    {
      BallState(x, y, speedX, speedY, rect)
    }

    /** `Ball()` serves at once. */
    constructor (c: ServeChoice)
      ensures State() == BallReset(c)
    {
      new;
      Reset(c);
    }

    method Reset(c: ServeChoice)
      modifies this
      ensures State() == BallReset(c)
    {
      x := (SCREEN_WIDTH / 2) as real;
      y := (SCREEN_HEIGHT / 2) as real;
      rect := Rect(x, y, size as real, size as real);
      var direction := SignValue(c.dirX);
      speedX := (BALL_SPEED_X * direction) as real;
      speedY := (BALL_SPEED_Y * SignValue(c.dirY)) as real;
    }

    method Move()
      modifies this
      ensures State() == BallMove(old(State()))
    {
      x := x + speedX;
      y := y + speedY;
      rect := rect.(x := x);
      rect := rect.(y := y);
      if y <= 0.0 || y >= (SCREEN_HEIGHT - size) as real {
        speedY := -speedY;
      }
    }
  }

  /** The match: two paddles, one ball, the scores and the game-over state
      (tennis_game.py:109-216 and the loop body of `run`, 274-279). */
  class Game {
    const paddle1: Paddle
    const paddle2: Paddle
    const ball: Ball
    var score1: nat
    var score2: nat
    var gameOver: bool
    var winner: Option<Player>

    /** The two paddles are distinct objects, so moving one leaves the other alone. */
    ghost predicate Valid()
      reads this
    {
      paddle1 != paddle2
    }

    function State(): GameState
      reads this, paddle1, paddle2, ball
    {
      GameState(paddle1.State(), paddle2.State(), ball.State(), score1, score2, gameOver, winner)
    }

    constructor (c: ServeChoice)
      ensures Valid() && State() == InitialGame(c)
      ensures fresh(paddle1) && fresh(paddle2) && fresh(ball)
    {
      paddle1 := new Paddle(LEFT_PADDLE_X, PADDLE_START_Y);
      paddle2 := new Paddle(SCREEN_WIDTH - 30 - PADDLE_WIDTH, PADDLE_START_Y);
      ball := new Ball(c);
      score1 := 0;
      score2 := 0;
      gameOver := false;
      winner := None;
    }

    /** `handle_events`: one serve choice suffices, since at most one restart can take
        effect in a batch (ControlsProps.EventsRestart). */
    method HandleEvents(events: seq<Event>, c: ServeChoice) returns (running: bool)
      requires Valid()
      modifies this, paddle1, paddle2, ball
      ensures Outcome(running, State()) == PongSpec.HandleEvents(old(State()), events, c)
    {
      var i := 0;
      while i < |events|
        invariant 0 <= i <= |events|
        invariant PongSpec.HandleEvents(old(State()), events, c) == PongSpec.HandleEvents(State(), events[i..], c)
      {
        assert events[i..][1..] == events[i + 1..];
        var event := events[i];
        if event == Quit {
          return false;
        }
        if event.KeyDown? {
          if event.key == Escape {
            return false;
          }
          if event.key == Space && gameOver {
            ResetGame(c);
          }
        }
        i := i + 1;
      }
      return true;
    }

    method HandleInput(keys: Keys)
      requires Valid()
      modifies paddle1, paddle2
      ensures State() == PongSpec.HandleInput(old(State()), keys)
    {
      if !gameOver {
        if keys.w {
          paddle1.MoveUp();
        }
        if keys.s {
          paddle1.MoveDown();
        }
        if keys.up {
          paddle2.MoveUp();
        }
        if keys.down {
          paddle2.MoveDown();
        }
      }
    }

    method Update(c: ServeChoice)
      modifies this, ball
      ensures State() == PongSpec.Update(old(State()), c)
    {
      if !gameOver {
        ghost var g := State();
        ball.Move();
        CheckHit(paddle1, Left);
        CheckHit(paddle2, Right);
        assert State() == g.(ball := Advance(g).ball);

        if ball.x <= 0.0 {
          ScorePoint(Player2, c);
        }
        if ball.x >= SCREEN_WIDTH as real {
          ScorePoint(Player1, c);
        }
      }
    }

    /** One of the two collision blocks of `update`: an overlap with `p` while the ball moves
        toward it reverses and speeds up the ball and sets its vertical speed from the offset. */
    method CheckHit(p: Paddle, side: Side)
      modifies ball
      ensures ball.State() == (if Honoured(old(ball.State()), p.State(), side)
                               then Bounce(old(ball.State()), p.State()) else old(ball.State()))
    {
      if Collide(ball.rect, p.rect) {
        if (side == Left && ball.speedX < 0.0) || (side == Right && ball.speedX > 0.0) {
          ball.speedX := ball.speedX * -SPEED_GROWTH;
          ball.speedY := DeflectedSpeedY(ball.y, p.y);
        }
      }
    }

    /** One of the two scoring blocks of `update`: the point, the win check, and a new serve
        unless the game just ended. */
    method ScorePoint(p: Player, c: ServeChoice)
      modifies this, ball
      ensures State() == AwardPoint(old(State()), p, c)
    {
      if p == Player1 {
        score1 := score1 + 1;
      } else {
        score2 := score2 + 1;
      }
      CheckWinner();
      if !gameOver {
        ball.Reset(c);
      }
    }

    method CheckWinner()
      modifies this
      ensures State() == PongSpec.CheckWinner(old(State()))
    {
      if score1 >= WINNING_SCORE {
        gameOver := true;
        winner := Some(Player1);
      } else if score2 >= WINNING_SCORE {
        gameOver := true;
        winner := Some(Player2);
      }
    }

    method ResetGame(c: ServeChoice)
      requires Valid()
      modifies this, paddle1, paddle2, ball
      ensures State() == PongSpec.ResetGame(old(State()), c)
    {
      score1 := 0;
      score2 := 0;
      gameOver := false;
      winner := None;
      ball.Reset(c);
      paddle1.y := PADDLE_START_Y;
      paddle2.y := PADDLE_START_Y;
      paddle1.rect := paddle1.rect.(y := paddle1.y as real);
      paddle2.rect := paddle2.rect.(y := paddle2.y as real);
    }

    /** One iteration of the loop in `run` (rendering and frame pacing left out). */
    method Tick(t: TickInput) returns (running: bool)
      requires Valid()
      modifies this, paddle1, paddle2, ball
      ensures Outcome(running, State()) == PongSpec.Tick(old(State()), t)
    {
      running := HandleEvents(t.events, t.restartServe);
      HandleInput(t.keys);
      Update(t.pointServe);
    }

    /** The loop of `run`, fed a finite sequence of ticks; returns how many ran. */
    method Run(ticks: seq<TickInput>) returns (n: nat)
      requires Valid()
      modifies this, paddle1, paddle2, ball
      ensures RunOutcome(n, State()) == PongSpec.Run(old(State()), ticks)
    {
      n := 0;
      var running := true;
      while running && n < |ticks|
        invariant n <= |ticks|
        invariant running ==>
          var rest := PongSpec.Run(State(), ticks[n..]);
          PongSpec.Run(old(State()), ticks) == RunOutcome(rest.ticks + n, rest.game)
        invariant !running ==> PongSpec.Run(old(State()), ticks) == RunOutcome(n, State())
      {
        assert ticks[n..][1..] == ticks[n + 1..];
        running := Tick(ticks[n]);
        n := n + 1;
      }
    }
  }
}
