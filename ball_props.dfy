/** Properties of the serve, of the ball's motion and of paddle hits. */
module BallProps {
  import opened PongConfig
  import opened Geometry
  import opened PongSpec
  import opened PaddleProps

  /** The two choices of a serve are independent: each of the four diagonal directions is served by some choice. */
  lemma ServeReachesEveryDirection(sx: real, sy: real)
    requires sx == 5.0 || sx == -5.0
    requires sy == 5.0 || sy == -5.0
    ensures exists c: ServeChoice :: BallReset(c).speedX == sx && BallReset(c).speedY == sy
  {
    var c := ServeChoice(if sx > 0.0 then Plus else Minus, if sy > 0.0 then Plus else Minus);
    assert BallReset(c).speedX == sx && BallReset(c).speedY == sy;
  }

  /** The vertical speed after a hit does not depend on the vertical speed before it. */
  lemma BounceForgetsSpeedY(b: BallState, p: PaddleState, s: real)
    ensures Bounce(b.(speedY := s), p) == Bounce(b, p)
  {
  }

  /** On overlap the impact offset lies in (-53/45, 52/45), so the deflected vertical speed lies
      strictly between -8*53/45 and 8*52/45; it is not confined to [-8, 8]. */
  lemma DeflectionRange(b: BallState, p: PaddleState)
    requires BallOk(b) && p.rect == PaddleRect(p.x, p.y)
    requires Collide(b.rect, p.rect)
    ensures -8.0 * 53.0 / 45.0 < DeflectedSpeedY(b.y, p.y) < 8.0 * 52.0 / 45.0
  {
    var d := (b.y + 7.0) - (p.y + 45) as real;
    assert -53.0 < d < 52.0;
    assert DeflectedSpeedY(b.y, p.y) == (d / 45.0) * 8.0;
    assert -53.0 / 45.0 < d / 45.0 < 52.0 / 45.0;
  }

  /**
   * A hit near the paddle's bottom edge deflects faster than 8: the offset exceeds 1.
   * The ball's rectangle is in place and the paddle sits at a position a game reaches.
   */
  lemma DeflectionCanExceedEight()
    ensures var b := BallState(40.0, 91.0, -5.0, 5.0, BallRect(40.0, 91.0));
            var p := NewPaddle(LEFT_PADDLE_X, 3);
            && BallOk(b) && PaddleOk(p, LEFT_PADDLE_X) && ReachableFromStart(p.y)
            && Collide(b.rect, p.rect) && DeflectedSpeedY(b.y, p.y) > DEFLECTION
  {
  }

  function Pow(r: real, k: nat): real
  {
    if k == 0 then 1.0 else r * Pow(r, k - 1)
  }

  /**
   * `a` after k hits: k multiplications by SPEED_GROWTH. This is `a * Pow(SPEED_GROWTH, k)`
   * (`GrowIsPow`), but written so that every step is linear in `a`: the rally proofs reason
   * with `Grow` and only the final statement is turned into a power.
   */
  function Grow(a: real, k: nat): real
  {
    if k == 0 then a else SPEED_GROWTH * Grow(a, k - 1)
  }

  lemma {:induction false} GrowIsPow(a: real, k: nat)
    ensures Grow(a, k) == a * Pow(SPEED_GROWTH, k)
    decreases k
  {
    if k > 0 {
      GrowIsPow(a, k - 1);
      assert SPEED_GROWTH * (a * Pow(SPEED_GROWTH, k - 1)) == a * (SPEED_GROWTH * Pow(SPEED_GROWTH, k - 1));
    }
  }

  lemma {:induction false} GrowAdd(a: real, h: nat, k: nat)
    ensures Grow(Grow(a, h), k) == Grow(a, h + k)
    decreases k
  {
    if k > 0 {
      GrowAdd(a, h, k - 1);
    }
  }

  /** Each honoured hit multiplies the horizontal speed by 1.05, and nothing else changes it. */
  lemma ResolveGrowth(b: BallState, p1: PaddleState, p2: PaddleState)
    ensures var r := ResolveCollisions(b, p1, p2);
            Abs(r.ball.speedX) == Grow(Abs(b.speedX), r.hits)
  {
    assert Grow(Abs(b.speedX), 1) == SPEED_GROWTH * Abs(b.speedX);
    assert Grow(Abs(b.speedX), 2) == SPEED_GROWTH * (SPEED_GROWTH * Abs(b.speedX));
  }

  /** With the paddles in their columns and a ball of size BALL_SIZE, no ball overlaps both
      paddles, so at most one hit is honoured per update. */
  lemma AtMostOneHit(b: BallState, p1: PaddleState, p2: PaddleState)
    requires BallOk(b) && PaddleOk(p1, LEFT_PADDLE_X) && PaddleOk(p2, RIGHT_PADDLE_X)
    ensures ResolveCollisions(b, p1, p2).hits <= 1
  {
  }

  /** A hit on the left paddle is honoured exactly on overlap while the ball moves left; it
      sends the ball right, 1.05 times as fast, at a vertical speed fixed by the impact offset. */
  lemma LeftHit(b: BallState, p1: PaddleState, p2: PaddleState)
    requires BallOk(b) && PaddleOk(p1, LEFT_PADDLE_X) && PaddleOk(p2, RIGHT_PADDLE_X)
    ensures var r := ResolveCollisions(b, p1, p2);
            (r.hits == 1 && r.ball.speedX > 0.0 <==> Collide(b.rect, p1.rect) && b.speedX < 0.0)
    ensures Collide(b.rect, p1.rect) && b.speedX < 0.0 ==>
            var r := ResolveCollisions(b, p1, p2);
            r.ball.speedX == -SPEED_GROWTH * b.speedX &&
            r.ball.speedY == 8.0 * ((b.y + 7.0) - (p1.y + 45) as real) / 45.0
  {
  }

  /** The right paddle, symmetrically, with the ball moving right. */
  lemma RightHit(b: BallState, p1: PaddleState, p2: PaddleState)
    requires BallOk(b) && PaddleOk(p1, LEFT_PADDLE_X) && PaddleOk(p2, RIGHT_PADDLE_X)
    ensures var r := ResolveCollisions(b, p1, p2);
            (r.hits == 1 && r.ball.speedX < 0.0 <==> Collide(b.rect, p2.rect) && b.speedX > 0.0)
    ensures Collide(b.rect, p2.rect) && b.speedX > 0.0 ==>
            var r := ResolveCollisions(b, p1, p2);
            r.ball.speedX == -SPEED_GROWTH * b.speedX &&
            r.ball.speedY == 8.0 * ((b.y + 7.0) - (p2.y + 45) as real) / 45.0
  {
  }
}
