/** Speed growth over a rally: the ticks between one serve and the next. */
module RallyProps {
  import opened PongConfig
  import opened PongSpec
  import MatchProps
  import ControlsProps
  import BallProps

  /** Paddle hits honoured during one tick. */
  function TickHits(g: GameState, t: TickInput): nat
  {
    var h := HandleInput(HandleEvents(g, t.events, t.restartServe).game, t.keys);
    if h.gameOver then 0 else Advance(h).hits
  }

  /** A tick of a running game in which nobody scores, so nothing serves the ball again. */
  predicate NoServe(g: GameState, t: TickInput)
  {
    var r := Tick(g, t).game;
    !g.gameOver && r.score1 == g.score1 && r.score2 == g.score2
  }

  /** Every tick of the sequence is a tick without a serve. */
  predicate Rally(g: GameState, ticks: seq<TickInput>)
    decreases |ticks|
  {
    ticks == [] || (NoServe(g, ticks[0]) && Rally(Tick(g, ticks[0]).game, ticks[1..]))
  }

  /** Paddle hits honoured over a sequence of ticks. */
  function RallyHits(g: GameState, ticks: seq<TickInput>): nat
    decreases |ticks|
  {
    if ticks == [] then 0 else TickHits(g, ticks[0]) + RallyHits(Tick(g, ticks[0]).game, ticks[1..])
  }

  /** In a tick without a serve the horizontal speed grows by 1.05 per hit and changes in no other way. */
  lemma TickSpeed(g: GameState, t: TickInput)
    requires NoServe(g, t)
    ensures Abs(Tick(g, t).game.ball.speedX) == BallProps.Grow(Abs(g.ball.speedX), TickHits(g, t))
  {
    ControlsProps.EventsWhilePlaying(g, t.events, t.restartServe);
    var h := HandleInput(g, t.keys);
    assert h.ball == g.ball && !h.gameOver;
    MatchProps.UpdateScoring(h, t.pointServe);
    BallProps.ResolveGrowth(BallMove(h.ball), h.paddle1, h.paddle2);
  }

  /** K hits with no serve in between multiply the horizontal speed by 1.05 K times. */
  lemma {:induction false} RallySpeed(g: GameState, ticks: seq<TickInput>)
    requires Rally(g, ticks)
    ensures Abs(Play(g, ticks).ball.speedX) == BallProps.Grow(Abs(g.ball.speedX), RallyHits(g, ticks))
    decreases |ticks|
  {
    if ticks != [] {
      var g1 := Tick(g, ticks[0]).game;
      TickSpeed(g, ticks[0]);
      RallySpeed(g1, ticks[1..]);
      BallProps.GrowAdd(Abs(g.ball.speedX), TickHits(g, ticks[0]), RallyHits(g1, ticks[1..]));
    }
  }

  /** A rally that starts from a serve: after K hits the horizontal speed is 5 * 1.05^K. */
  lemma ServedRallySpeed(g: GameState, c: ServeChoice, ticks: seq<TickInput>)
    requires g.ball == BallReset(c) && Rally(g, ticks)
    ensures Abs(Play(g, ticks).ball.speedX) == 5.0 * BallProps.Pow(1.05, RallyHits(g, ticks))
  {
    RallySpeed(g, ticks);
    BallProps.GrowIsPow(5.0, RallyHits(g, ticks));
  }
}
