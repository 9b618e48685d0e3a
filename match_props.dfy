/** Properties of the scoring state machine: `update`, `check_winner`, `reset_game`
    and the freezing of the game once it is over. */
module MatchProps {
  import opened PongConfig
  import opened PongSpec

  /** Checking twice for a winner is checking once. */
  lemma CheckWinnerIdempotent(g: GameState)
    ensures CheckWinner(CheckWinner(g)) == CheckWinner(g)
  {
  }

  /** Once the game is over, neither the held keys nor the update change anything. */
  lemma GameOverFreezes(g: GameState, k: Keys, c: ServeChoice)
    requires g.gameOver
    ensures HandleInput(g, k) == g && Update(g, c) == g
  {
  }

  /** One update of a running game: a ball that ends left of the screen scores for player 2,
      one that ends right of it scores for player 1, at most one point is scored, the paddles
      do not move, and the ball is served again exactly when a point did not end the game. */
  lemma UpdateScoring(g: GameState, c: ServeChoice)
    requires !g.gameOver
    ensures var r := Update(g, c);
            var x := Advance(g).ball.x;
            var scored := x <= 0.0 || x >= SCREEN_WIDTH as real;
            r.score2 == g.score2 + (if x <= 0.0 then 1 else 0) &&
            r.score1 == g.score1 + (if x >= SCREEN_WIDTH as real then 1 else 0) &&
            r.score1 + r.score2 <= g.score1 + g.score2 + 1 &&
            r.paddle1 == g.paddle1 && r.paddle2 == g.paddle2 &&
            r.ball == (if scored && !r.gameOver then BallReset(c) else Advance(g).ball) &&
            (!scored ==> r == g.(ball := Advance(g).ball))
  {
  }

  /** A running game that satisfies the invariant still does after one update. */
  lemma UpdatePreservesInv(g: GameState, c: ServeChoice)
    requires Inv(g)
    ensures Inv(Update(g, c))
  {
  }

  /** The held keys keep both paddles in their bands and leave the rest of the state alone. */
  lemma HandleInputPreservesInv(g: GameState, k: Keys)
    requires Inv(g)
    ensures Inv(HandleInput(g, k))
    ensures HandleInput(g, k) == g.(paddle1 := HandleInput(g, k).paddle1, paddle2 := HandleInput(g, k).paddle2)
  {
  }

  /** The new game starts in a state that satisfies the invariant. */
  lemma InitialInv(c: ServeChoice)
    ensures Inv(InitialGame(c))
  {
  }

  /** A restart yields, in the same objects, exactly the state the game was created in:
      scores 0, not over, no winner, a fresh serve, both paddles at 255 with synced rectangles. */
  lemma ResetGameIsInitial(g: GameState, c: ServeChoice)
    requires PaddleOk(g.paddle1, LEFT_PADDLE_X) && PaddleOk(g.paddle2, RIGHT_PADDLE_X)
    ensures ResetGame(g, c) == InitialGame(c)
  {
  }

  /** From 9:3, a ball leaving on the right ends the game for player 1, the ball is not served
      again, and the restart key then gives a fresh game. */
  lemma WinThenRestart(g: GameState, c: ServeChoice, c2: ServeChoice)
    requires Inv(g) && g.score1 == 9 && g.score2 == 3 && !g.gameOver
    requires Advance(g).ball.x >= SCREEN_WIDTH as real
    ensures var over := Update(g, c);
            over.score1 == 10 && over.score2 == 3 && over.gameOver && over.winner == Some(Player1) &&
            over.ball == Advance(g).ball &&
            HandleEvents(over, [KeyDown(Space)], c2) == Outcome(true, InitialGame(c2))
  {
  }
}
