/** The game's behaviour as pure transitions between value snapshots. Each
    function here is the specification of one method of the classes in module
    PongGame (game.dfy), which update the same state in place. */
module PongSpec {
  import opened PongConfig
  import opened Geometry

  datatype Option<T> = None | Some(value: T)

  /** One outcome of `random.choice([-1, 1])`. */
  datatype Sign = Minus | Plus

  function SignValue(s: Sign): int
  {
    if s == Plus then 1 else -1
  }

  /** The two independent random choices one serve makes: horizontal and vertical direction. */
  datatype ServeChoice = ServeChoice(dirX: Sign, dirY: Sign)

  /** The two possible winners ("GRACZ 1" and "GRACZ 2"). */
  datatype Player = Player1 | Player2

  /** Which paddle a collision check is about. */
  datatype Side = Left | Right

  datatype PaddleState = PaddleState(x: int, y: int, rect: Rect)

  datatype BallState = BallState(x: real, y: real, speedX: real, speedY: real, rect: Rect)

  datatype GameState = GameState(
    paddle1: PaddleState,
    paddle2: PaddleState,
    ball: BallState,
    score1: nat,
    score2: nat,
    gameOver: bool,
    winner: Option<Player>)

  /** The four held keys the game polls: W, S, arrow up, arrow down. */
  datatype Keys = Keys(w: bool, s: bool, up: bool, down: bool)

  datatype Key = Escape | Space | OtherKey

  /** The events the game distinguishes: window close, a key press, anything else. */
  datatype Event = Quit | KeyDown(key: Key) | OtherEvent

  /** Result of one event batch or one tick: whether the game keeps running, and the new state. */
  datatype Outcome = Outcome(running: bool, game: GameState)

  /** Everything one tick of the main loop reads from outside: the event batch, the held keys,
      and the random choices of a serve caused by a restart and of a serve caused by a point. */
  datatype TickInput = TickInput(events: seq<Event>, keys: Keys, restartServe: ServeChoice, pointServe: ServeChoice)

  /** Result of the main loop: how many ticks ran, and the final state. */
  datatype RunOutcome = RunOutcome(ticks: nat, game: GameState)

  function Abs(r: real): real
  {
    if r < 0.0 then -r else r
  }

  // ---------------------------------------------------------------- Paddle

  function PaddleRect(x: int, y: int): Rect
  {
    Rect(x as real, y as real, PADDLE_WIDTH as real, PADDLE_HEIGHT as real)
  }

  /** `Paddle(x, y)`: the rectangle starts in sync with the position. */
  function NewPaddle(x: int, y: int): PaddleState
  {
    PaddleState(x, y, PaddleRect(x, y))
  }

  /** `Paddle.move_up`: a step of PADDLE_SPEED upwards, taken only while `y > 0`. */
  function MoveUp(p: PaddleState): (r: PaddleState)
    ensures r.x == p.x
    ensures r.y == p.y - PADDLE_SPEED <==> p.y > 0
    ensures p.y > 0 ==> r.rect == p.rect.(y := r.y as real)
    ensures p.y <= 0 ==> r == p
  {
    if p.y > 0 then
      var y := p.y - PADDLE_SPEED;
      p.(y := y, rect := p.rect.(y := y as real))
    else
      p
  }

  /** `Paddle.move_down`: a step of PADDLE_SPEED downwards, taken only while `y < SCREEN_HEIGHT - PADDLE_HEIGHT`. */
  function MoveDown(p: PaddleState): (r: PaddleState)
    ensures r.x == p.x
    ensures r.y == p.y + PADDLE_SPEED <==> p.y < SCREEN_HEIGHT - PADDLE_HEIGHT
    ensures p.y < SCREEN_HEIGHT - PADDLE_HEIGHT ==> r.rect == p.rect.(y := r.y as real)
    ensures p.y >= SCREEN_HEIGHT - PADDLE_HEIGHT ==> r == p
  {
    if p.y < SCREEN_HEIGHT - PADDLE_HEIGHT then
      var y := p.y + PADDLE_SPEED;
      p.(y := y, rect := p.rect.(y := y as real))
    else
      p
  }

  predicate InBand(y: int)
  {
    BAND_LOW <= y <= BAND_HIGH
  }

  // ---------------------------------------------------------------- Ball

  function BallRect(x: real, y: real): Rect
  {
    Rect(x, y, BALL_SIZE as real, BALL_SIZE as real)
  }

  /** `Ball.reset`: the serve. */
  function BallReset(c: ServeChoice): (r: BallState)
    ensures r.x == 400.0 && r.y == 300.0
    ensures r.speedX == 5.0 || r.speedX == -5.0
    ensures r.speedY == 5.0 || r.speedY == -5.0
    ensures r.speedX > 0.0 <==> c.dirX == Plus
    ensures r.speedY > 0.0 <==> c.dirY == Plus
    ensures r.rect == BallRect(r.x, r.y)
  {
    var x := (SCREEN_WIDTH / 2) as real;
    var y := (SCREEN_HEIGHT / 2) as real;
    BallState(x, y, (BALL_SPEED_X * SignValue(c.dirX)) as real, (BALL_SPEED_Y * SignValue(c.dirY)) as real,
              BallRect(x, y))
  }

  /** The top and bottom walls: a ball whose top edge is at or above 0, or whose
      bottom edge is at or below the screen's bottom edge. */
  predicate HitsWall(y: real)
  {
    y <= 0.0 || y >= (SCREEN_HEIGHT - BALL_SIZE) as real
  }

  /** `Ball.move`: one tick of motion, with an elastic bounce off the top and bottom walls. */
  function BallMove(b: BallState): (r: BallState)
    ensures r.x == b.x + b.speedX && r.y == b.y + b.speedY
    ensures r.rect == b.rect.(x := r.x, y := r.y)
    ensures r.speedX == b.speedX
    ensures Abs(r.speedY) == Abs(b.speedY)
    ensures b.speedY != 0.0 ==> (r.speedY == -b.speedY <==> HitsWall(r.y))
  {
    var x := b.x + b.speedX;
    var y := b.y + b.speedY;
    BallState(x, y, b.speedX, if HitsWall(y) then -b.speedY else b.speedY, b.rect.(x := x, y := y))
  }

  // ---------------------------------------------------------------- Collisions

  /** Vertical speed after a paddle hit, from the offset between the ball's and the paddle's
      centres (both measured with Python's floor division of the sizes). */
  function DeflectedSpeedY(ballY: real, paddleY: int): real
  {
    var paddleCenter := paddleY + PADDLE_HEIGHT / 2;
    var ballCenter := ballY + (BALL_SIZE / 2) as real;
    var offset := (ballCenter - paddleCenter as real) / (PADDLE_HEIGHT / 2) as real;
    offset * DEFLECTION
  }

  /** One honoured paddle hit: the horizontal speed reverses and grows, the vertical speed
      is recomputed from the impact offset alone. */
  function Bounce(b: BallState, p: PaddleState): (r: BallState)
    ensures Abs(r.speedX) == SPEED_GROWTH * Abs(b.speedX)
    ensures b.speedX < 0.0 ==> r.speedX > 0.0
    ensures b.speedX > 0.0 ==> r.speedX < 0.0
    ensures r.speedY == 8.0 * ((b.y + 7.0) - (p.y + 45) as real) / 45.0
    ensures r.x == b.x && r.y == b.y && r.rect == b.rect
  {
    b.(speedX := b.speedX * -SPEED_GROWTH, speedY := DeflectedSpeedY(b.y, p.y))
  }

  /** A hit is honoured only on overlap while the ball moves toward that paddle. */
  predicate Honoured(b: BallState, p: PaddleState, side: Side)
  {
    Collide(b.rect, p.rect) && (if side == Left then b.speedX < 0.0 else b.speedX > 0.0)
  }

  /** The ball after both paddle checks, with the number of hits honoured. */
  datatype Resolution = Resolution(ball: BallState, hits: nat)

  /** The two collision checks of `Game.update`: left paddle first, then the right paddle
      against the ball as the left check left it. */
  function ResolveCollisions(b: BallState, p1: PaddleState, p2: PaddleState): (r: Resolution)
    ensures r.hits <= 2
    ensures r.hits == 0 ==> r.ball == b
    ensures r.ball.x == b.x && r.ball.y == b.y && r.ball.rect == b.rect
  {
    var leftHit := Honoured(b, p1, Left);
    var b1 := if leftHit then Bounce(b, p1) else b;
    var rightHit := Honoured(b1, p2, Right);
    var b2 := if rightHit then Bounce(b1, p2) else b1;
    Resolution(b2, (if leftHit then 1 else 0) + (if rightHit then 1 else 0))
  }

  // ---------------------------------------------------------------- Match

  /** State of `Game.__init__` (without its window, clock and fonts). */
  function InitialGame(c: ServeChoice): GameState
  {
    GameState(NewPaddle(LEFT_PADDLE_X, PADDLE_START_Y), NewPaddle(RIGHT_PADDLE_X, PADDLE_START_Y),
              BallReset(c), 0, 0, false, None)
  }

  /** `Game.check_winner`: player 1 is checked first. */
  function CheckWinner(g: GameState): (r: GameState)
    ensures r.gameOver <==> g.gameOver || g.score1 >= WINNING_SCORE || g.score2 >= WINNING_SCORE
    ensures g.score1 >= WINNING_SCORE ==> r.winner == Some(Player1)
    ensures g.score1 < WINNING_SCORE && g.score2 >= WINNING_SCORE ==> r.winner == Some(Player2)
    ensures g.score1 < WINNING_SCORE && g.score2 < WINNING_SCORE ==> r == g
    ensures r == g.(gameOver := r.gameOver, winner := r.winner)
  {
    if g.score1 >= WINNING_SCORE then g.(gameOver := true, winner := Some(Player1))
    else if g.score2 >= WINNING_SCORE then g.(gameOver := true, winner := Some(Player2))
    else g
  }

  /** One scoring block of `Game.update`: the point, the win check, and a serve unless the game ended. */
  function AwardPoint(g: GameState, p: Player, c: ServeChoice): (r: GameState)
    ensures p == Player1 ==> r.score1 == g.score1 + 1 && r.score2 == g.score2
    ensures p == Player2 ==> r.score2 == g.score2 + 1 && r.score1 == g.score1
    ensures r.paddle1 == g.paddle1 && r.paddle2 == g.paddle2
    ensures r.ball == (if r.gameOver then g.ball else BallReset(c))
  {
    var scored := if p == Player1 then g.(score1 := g.score1 + 1) else g.(score2 := g.score2 + 1);
    var checked := CheckWinner(scored);
    if !checked.gameOver then checked.(ball := BallReset(c)) else checked
  }

  /** The ball after the motion and the collision checks of one update. */
  function Advance(g: GameState): Resolution
  {
    ResolveCollisions(BallMove(g.ball), g.paddle1, g.paddle2)
  }

  /** `Game.update`: one simulation step; nothing happens once the game is over. */
  function Update(g: GameState, c: ServeChoice): (r: GameState)
    ensures g.gameOver ==> r == g
    ensures r.paddle1 == g.paddle1 && r.paddle2 == g.paddle2
  {
    if g.gameOver then g
    else
      var moved := g.(ball := Advance(g).ball);
      var afterLeft := if moved.ball.x <= 0.0 then AwardPoint(moved, Player2, c) else moved;
      if afterLeft.ball.x >= SCREEN_WIDTH as real then AwardPoint(afterLeft, Player1, c) else afterLeft
  }

  /** `Game.reset_game`: a new match in the same game object. */
  function ResetGame(g: GameState, c: ServeChoice): GameState
  {
    g.(score1 := 0, score2 := 0, gameOver := false, winner := None, ball := BallReset(c),
       paddle1 := g.paddle1.(y := PADDLE_START_Y, rect := g.paddle1.rect.(y := PADDLE_START_Y as real)),
       paddle2 := g.paddle2.(y := PADDLE_START_Y, rect := g.paddle2.rect.(y := PADDLE_START_Y as real)))
  }

  // ---------------------------------------------------------------- Controls

  /** `Game.handle_input`: the held keys move the paddles, unless the game is over. */
  function HandleInput(g: GameState, k: Keys): GameState
  {
    if g.gameOver then g
    else
      var p1 := if k.w then MoveUp(g.paddle1) else g.paddle1;
      var p1' := if k.s then MoveDown(p1) else p1;
      var p2 := if k.up then MoveUp(g.paddle2) else g.paddle2;
      var p2' := if k.down then MoveDown(p2) else p2;
      g.(paddle1 := p1', paddle2 := p2')
  }

  /** An event that makes `handle_events` return false. */
  predicate IsStop(e: Event)
  {
    e == Quit || e == KeyDown(Escape)
  }

  /** `Game.handle_events`: the batch in order, stopping at the first quit or Escape;
      Space restarts only a game that is over. */
  function HandleEvents(g: GameState, events: seq<Event>, c: ServeChoice): Outcome
    decreases |events|
  {
    if events == [] then Outcome(true, g)
    else
      match events[0]
      case Quit => Outcome(false, g)
      case KeyDown(key) =>
        if key == Escape then Outcome(false, g)
        else HandleEvents(if key == Space && g.gameOver then ResetGame(g, c) else g, events[1..], c)
      case OtherEvent => HandleEvents(g, events[1..], c)
  }

  /** The body of the main loop of `Game.run`: events, then held keys, then the update.
      The tick completes even when the events asked to stop. */
  function Tick(g: GameState, t: TickInput): Outcome
  {
    var afterEvents := HandleEvents(g, t.events, t.restartServe);
    Outcome(afterEvents.running, Update(HandleInput(afterEvents.game, t.keys), t.pointServe))
  }

  /** The main loop over a finite supply of ticks: it ends after the first tick whose events
      asked to stop, or when the supply runs out. */
  function Run(g: GameState, ticks: seq<TickInput>): (r: RunOutcome)
    ensures r.ticks <= |ticks|
    decreases |ticks|
  {
    if ticks == [] then RunOutcome(0, g)
    else
      var o := Tick(g, ticks[0]);
      if !o.running then RunOutcome(1, o.game)
      else
        var rest := Run(o.game, ticks[1..]);
        RunOutcome(rest.ticks + 1, rest.game)
  }

  /** All the ticks, one after the other, whatever they ask: the reference the loop is compared with. */
  function Play(g: GameState, ticks: seq<TickInput>): GameState
    decreases |ticks|
  {
    if ticks == [] then g else Play(Tick(g, ticks[0]).game, ticks[1..])
  }

  // ---------------------------------------------------------------- Invariant

  /** A paddle keeps its column, stays inside its band and keeps its rectangle in sync. */
  predicate PaddleOk(p: PaddleState, x: int)
  {
    p.x == x && InBand(p.y) && p.rect == PaddleRect(x, p.y)
  }

  /** The ball's rectangle follows its (untruncated) position. */
  predicate BallOk(b: BallState)
  {
    b.rect == BallRect(b.x, b.y)
  }

  /** Scores never pass the winning score, at most one side reaches it, the game is over
      exactly when one has, and the winner is that side. */
  predicate ScoresOk(g: GameState)
  {
    g.score1 <= WINNING_SCORE && g.score2 <= WINNING_SCORE &&
    !(g.score1 == WINNING_SCORE && g.score2 == WINNING_SCORE) &&
    (g.gameOver <==> g.score1 == WINNING_SCORE || g.score2 == WINNING_SCORE) &&
    g.winner == (if g.score1 == WINNING_SCORE then Some(Player1)
                 else if g.score2 == WINNING_SCORE then Some(Player2)
                 else None)
  }

  predicate Inv(g: GameState)
  {
    PaddleOk(g.paddle1, LEFT_PADDLE_X) && PaddleOk(g.paddle2, RIGHT_PADDLE_X) &&
    BallOk(g.ball) && ScoresOk(g)
  }
}
