/** Properties of the event batch, of one tick of the main loop, and of the loop itself. */
module ControlsProps {
  import opened PongConfig
  import opened PongSpec
  import MatchProps

  /** A restart is asked for when a Space press comes before any quit or Escape. */
  predicate RestartRequested(events: seq<Event>)
  {
    exists i :: 0 <= i < |events| && events[i] == KeyDown(Space) &&
      forall j :: 0 <= j < i ==> !IsStop(events[j])
  }

  /** The batch keeps the game running exactly when it holds no quit and no Escape. */
  lemma {:induction false} EventsRunning(g: GameState, events: seq<Event>, c: ServeChoice)
    ensures HandleEvents(g, events, c).running <==> forall i :: 0 <= i < |events| ==> !IsStop(events[i])
    decreases |events|
  {
    if events != [] && !IsStop(events[0]) {
      var g' := if events[0] == KeyDown(Space) && g.gameOver then ResetGame(g, c) else g;
      EventsRunning(g', events[1..], c);
      assert forall i :: 1 <= i < |events| ==> events[i] == events[1..][i - 1];
    }
  }

  /** Events after the first quit or Escape of a batch are ignored. */
  lemma {:induction false} EventsIgnoreAfterStop(g: GameState, events: seq<Event>, k: nat, c: ServeChoice)
    requires k < |events| && IsStop(events[k])
    ensures HandleEvents(g, events, c) == HandleEvents(g, events[..k + 1], c)
    decreases k
  {
    if k > 0 && !IsStop(events[0]) {
      var g' := if events[0] == KeyDown(Space) && g.gameOver then ResetGame(g, c) else g;
      assert events[..k + 1][1..] == events[1..][..k];
      EventsIgnoreAfterStop(g', events[1..], k - 1, c);
    }
  }

  /** While the game runs, no event batch changes the state. */
  lemma {:induction false} EventsWhilePlaying(g: GameState, events: seq<Event>, c: ServeChoice)
    requires !g.gameOver
    ensures HandleEvents(g, events, c).game == g
    decreases |events|
  {
    if events != [] {
      EventsWhilePlaying(g, events[1..], c);
    }
  }

  /** A batch restarts the game exactly when the game is over and a Space press comes before
      any stop; otherwise the state is untouched. So at most one restart takes effect per batch. */
  lemma {:induction false} EventsRestart(g: GameState, events: seq<Event>, c: ServeChoice)
    requires PaddleOk(g.paddle1, LEFT_PADDLE_X) && PaddleOk(g.paddle2, RIGHT_PADDLE_X)
    ensures HandleEvents(g, events, c).game ==
            if g.gameOver && RestartRequested(events) then InitialGame(c) else g
    decreases |events|
  {
    if events == [] {
    } else if IsStop(events[0]) {
      assert !RestartRequested(events);
    } else if events[0] == KeyDown(Space) {
      assert RestartRequested(events) by {
        assert events[0] == KeyDown(Space);
      }
      if g.gameOver {
        MatchProps.ResetGameIsInitial(g, c);
        EventsWhilePlaying(ResetGame(g, c), events[1..], c);
      } else {
        EventsWhilePlaying(g, events[1..], c);
      }
    } else {
      EventsRestart(g, events[1..], c);
      RestartRequestedTail(events);
    }
  }

  /** A leading event that is neither a stop nor Space neither asks for nor prevents a restart. */
  lemma RestartRequestedTail(events: seq<Event>)
    requires events != [] && !IsStop(events[0]) && events[0] != KeyDown(Space)
    ensures RestartRequested(events) <==> RestartRequested(events[1..])
  {
  }

  /** A second Space in the same batch does nothing. */
  lemma SecondSpaceIsNoOp(g: GameState, c: ServeChoice)
    ensures HandleEvents(g, [KeyDown(Space), KeyDown(Space)], c) == HandleEvents(g, [KeyDown(Space)], c)
  {
  }

  /** A game that is over stays frozen for a whole tick unless that tick asks for a restart. */
  lemma TickFrozenUntilRestart(g: GameState, t: TickInput)
    requires Inv(g) && g.gameOver && !RestartRequested(t.events)
    ensures Tick(g, t).game == g
  {
    EventsRestart(g, t.events, t.restartServe);
  }

  /** One tick keeps the invariant: paddles in their bands, scores at most 10, at most one 10,
      the game over exactly when someone has 10. */
  lemma TickPreservesInv(g: GameState, t: TickInput)
    requires Inv(g)
    ensures Inv(Tick(g, t).game)
  {
    var e := HandleEvents(g, t.events, t.restartServe).game;
    EventsRestart(g, t.events, t.restartServe);
    MatchProps.InitialInv(t.restartServe);
    MatchProps.HandleInputPreservesInv(e, t.keys);
    MatchProps.UpdatePreservesInv(HandleInput(e, t.keys), t.pointServe);
  }

  lemma {:induction false} PlayPreservesInv(g: GameState, ticks: seq<TickInput>)
    requires Inv(g)
    ensures Inv(Play(g, ticks))
    decreases |ticks|
  {
    if ticks != [] {
      TickPreservesInv(g, ticks[0]);
      PlayPreservesInv(Tick(g, ticks[0]).game, ticks[1..]);
    }
  }

  /** The loop runs the ticks in order, one after another, up to and including the first tick
      whose events asked to stop; every earlier tick asked to go on. */
  lemma {:induction false} RunIsPlayPrefix(g: GameState, ticks: seq<TickInput>)
    ensures var r := Run(g, ticks);
            r.game == Play(g, ticks[..r.ticks]) &&
            (forall k :: 0 <= k < r.ticks - 1 ==> Tick(Play(g, ticks[..k]), ticks[k]).running) &&
            (r.ticks < |ticks| ==> r.ticks > 0 && !Tick(Play(g, ticks[..r.ticks - 1]), ticks[r.ticks - 1]).running)
    decreases |ticks|
  {
    if ticks != [] {
      var o := Tick(g, ticks[0]);
      assert ticks[..1] == [ticks[0]];
      assert Play(g, ticks[..1]) == Play(o.game, []);
      assert ticks[..0] == [];
      if o.running {
        RunIsPlayPrefix(o.game, ticks[1..]);
        var rest := Run(o.game, ticks[1..]);
        forall n | 0 <= n <= rest.ticks
          ensures Play(g, ticks[..n + 1]) == Play(o.game, ticks[1..][..n])
        {
          assert ticks[..n + 1][0] == ticks[0];
          assert ticks[..n + 1][1..] == ticks[1..][..n];
        }
      }
    }
  }

  /** Scores stay at most 10 and at most one of them reaches 10 in any run of the game. */
  lemma RunKeepsScoresBounded(c: ServeChoice, ticks: seq<TickInput>)
    ensures var r := Run(InitialGame(c), ticks).game;
            r.score1 <= WINNING_SCORE && r.score2 <= WINNING_SCORE &&
            (r.score1 < WINNING_SCORE || r.score2 < WINNING_SCORE)
  {
    MatchProps.InitialInv(c);
    RunIsPlayPrefix(InitialGame(c), ticks);
    PlayPreservesInv(InitialGame(c), ticks[..Run(InitialGame(c), ticks).ticks]);
  }
}
