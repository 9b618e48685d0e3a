/** What sequences of `move_up` / `move_down` can do to a paddle. */
module PaddleProps {
  import opened PongConfig
  import opened PongSpec

  datatype Move = Up | Down

  function Step(p: PaddleState, m: Move): PaddleState
  {
    if m == Up then MoveUp(p) else MoveDown(p)
  }

  function ApplyMoves(p: PaddleState, ms: seq<Move>): PaddleState
    decreases |ms|
  {
    if ms == [] then p else ApplyMoves(Step(p, ms[0]), ms[1..])
  }

  function Repeat(m: Move, n: nat): (r: seq<Move>)
    ensures |r| == n
  {
    if n == 0 then [] else [m] + Repeat(m, n - 1)
  }

  /** One move keeps a paddle inside the band [BAND_LOW, BAND_HIGH], its column and its rectangle in sync. */
  lemma StepKeepsPaddleOk(p: PaddleState, x: int, m: Move)
    requires PaddleOk(p, x)
    ensures PaddleOk(Step(p, m), x)
  {
  }

  /** The band is preserved by every sequence of moves. */
  lemma {:induction false} MovesKeepPaddleOk(p: PaddleState, x: int, ms: seq<Move>)
    requires PaddleOk(p, x)
    ensures PaddleOk(ApplyMoves(p, ms), x)
    decreases |ms|
  {
    if ms != [] {
      StepKeepsPaddleOk(p, x, ms[0]);
      MovesKeepPaddleOk(Step(p, ms[0]), x, ms[1..]);
    }
  }

  /**
   * Positions reachable from the start position: in steps of PADDLE_SPEED, within
   * 37 steps of it either way, which is [-4, 514].
   */
  predicate ReachableFromStart(y: int)
  {
    && PADDLE_START_Y - 37 * PADDLE_SPEED <= y <= PADDLE_START_Y + 37 * PADDLE_SPEED
    && (y - PADDLE_START_Y) % PADDLE_SPEED == 0
  }

  /** From the start (and restart) position 255 no move sequence leaves [-4, 514]. */
  lemma {:induction false} MovesFromStartStayReachable(p: PaddleState, ms: seq<Move>)
    requires ReachableFromStart(p.y)
    ensures ReachableFromStart(ApplyMoves(p, ms).y)
    decreases |ms|
  {
    if ms != [] {
      MovesFromStartStayReachable(Step(p, ms[0]), ms[1..]);
    }
  }

  /** Holding "up" for n moves subtracts n speeds as long as the guard still lets the last one through. */
  lemma {:induction false} RepeatUp(p: PaddleState, n: nat)
    requires n >= 1 && p.y - PADDLE_SPEED * (n - 1) > 0
    ensures ApplyMoves(p, Repeat(Up, n)).y == p.y - PADDLE_SPEED * n
    decreases n
  {
    assert Repeat(Up, n)[1..] == Repeat(Up, n - 1);
    if n > 1 {
      RepeatUp(MoveUp(p), n - 1);
    }
  }

  lemma {:induction false} RepeatDown(p: PaddleState, n: nat)
    requires n >= 1 && p.y + PADDLE_SPEED * (n - 1) < SCREEN_HEIGHT - PADDLE_HEIGHT
    ensures ApplyMoves(p, Repeat(Down, n)).y == p.y + PADDLE_SPEED * n
    decreases n
  {
    assert Repeat(Down, n)[1..] == Repeat(Down, n - 1);
    if n > 1 {
      RepeatDown(MoveDown(p), n - 1);
    }
  }

  /** The guards are a band, not a clamp: 37 moves from 255 reach -4 and 514, outside [0, 510]. */
  lemma ExtremesReachable(x: int)
    ensures ApplyMoves(NewPaddle(x, PADDLE_START_Y), Repeat(Up, 37)).y == -4
    ensures ApplyMoves(NewPaddle(x, PADDLE_START_Y), Repeat(Down, 37)).y == 514
  {
    RepeatUp(NewPaddle(x, PADDLE_START_Y), 37);
    RepeatDown(NewPaddle(x, PADDLE_START_Y), 37);
  }
}
