/** Properties of the tick rules: what one tick does to the paddles, the
    ball and the scores, and what a whole match keeps invariant. */
module Properties {
  import opened Geometry
  import opened Entities
  import opened Rules

  /** Paddles after a tick: each held "up" key lowers y by `PADDLE_SPEED`,
      each held "down" key raises it by `PADDLE_SPEED`, the two adjustments
      add up independently, and x, velocity and size never change. */
  lemma StepMovesPaddles(m: MatchState, keys: Keys, draw: Draw)
    ensures var r := Step(m, keys, draw).state;
      r.player1.position.y == m.player1.position.y
        - (if keys.w then PADDLE_SPEED else 0.0) + (if keys.s then PADDLE_SPEED else 0.0) &&
      r.player2.position.y == m.player2.position.y
        - (if keys.o then PADDLE_SPEED else 0.0) + (if keys.k then PADDLE_SPEED else 0.0) &&
      r.player1.position.x == m.player1.position.x && r.player2.position.x == m.player2.position.x &&
      r.player1.velocity == m.player1.velocity && r.player2.velocity == m.player2.velocity &&
      r.player1.texture == m.player1.texture && r.player2.texture == m.player2.texture
  {
  }

  /** At most one paddle hit per tick, and player 1's paddle wins: when the
      ball overlaps it, player 2's paddle plays no part in the bounce. */
  lemma Player1HitHasPriority(ball: Entity, player1: Entity, player2: Entity, other: Entity)
    requires ball.Bounds().Intersects(player1.Bounds())
    ensures Rebound(ball, player1, player2) == Rebound(ball, player1, other)
    ensures Rebound(ball, player1, player2) == WallBounce(Deflect(ball, player1))
  {
  }

  /** A ball that hits a paddle dead centre keeps its vertical speed; only
      its horizontal direction is reversed. */
  lemma DeadCentreHitAddsNoSpin(ball: Entity, paddle: Entity)
    requires ball.Centre().y == paddle.Centre().y
    ensures Deflect(ball, paddle).velocity == Vec2(-ball.velocity.x, ball.velocity.y)
  {
  }

  /** The paddle and wall rules only ever change the ball's velocity: its
      position and size are those it started the tick with. */
  lemma ReboundKeepsPosition(ball: Entity, player1: Entity, player2: Entity)
    ensures Rebound(ball, player1, player2).position == ball.position
    ensures Rebound(ball, player1, player2).texture == ball.texture
    ensures Rebound(ball, player1, player2).velocity.x ==
      if PaddleHit(ball, player1, player2).Some? then -ball.velocity.x else ball.velocity.x
  {
  }

  /** Scores after a tick. Whether anybody scores depends only on where the
      ball was when the tick began: past the left edge, player 2 gains
      exactly one point; past the right edge, player 1 does; otherwise
      nothing changes. The second goal test never fires after the first,
      because the first puts the ball back in the middle of the field. */
  lemma StepScores(m: MatchState, keys: Keys, draw: Draw)
    ensures var r := Step(m, keys, draw).state;
      (m.ball.position.x < 0.0 ==>
        r.player1Score == m.player1Score && r.player2Score == m.player2Score + 1) &&
      (m.ball.position.x > WINDOW_WIDTH ==>
        r.player1Score == m.player1Score + 1 && r.player2Score == m.player2Score) &&
      (0.0 <= m.ball.position.x <= WINDOW_WIDTH ==>
        r.player1Score == m.player1Score && r.player2Score == m.player2Score)
  {
  }

  /** The ball after a tick. After a goal it is served from the centre
      spot (where the match starts it too) with a velocity of exactly
      `(BALL_SPEED, 0)` or `(-BALL_SPEED, 0)`, all spin gone; otherwise it has
      moved from where it was by the velocity the paddle and wall rules left
      it. In both cases it has advanced, also on the tick that ends the match. */
  lemma StepMovesBall(m: MatchState, keys: Keys, draw: Draw)
    ensures var b := Step(m, keys, draw).state.ball;
      b.texture == m.ball.texture &&
      (m.ball.position.x < 0.0 || m.ball.position.x > WINDOW_WIDTH ==>
        b.velocity == ServeVelocity(draw) && b.velocity.y == 0.0 &&
        (b.velocity.x == BALL_SPEED || b.velocity.x == -BALL_SPEED) &&
        b.position == CentreSpot(m.ball.texture).Plus(b.velocity)) &&
      (0.0 <= m.ball.position.x <= WINDOW_WIDTH ==>
        b.velocity == Rebound(m.ball, MovePaddle(m.player1, keys.w, keys.s), MovePaddle(m.player2, keys.o, keys.k)).velocity &&
        b.position == m.ball.position.Plus(b.velocity))
  {
  }

  /** The wall rule within a tick: when the ball neither meets a paddle nor
      leaves the field sideways, its vertical speed is negated exactly when it
      touches the top or bottom wall, its horizontal speed is kept, and it is
      not pushed back inside the field before it advances. */
  lemma StepWallBounce(m: MatchState, keys: Keys, draw: Draw)
    requires 0.0 <= m.ball.position.x <= WINDOW_WIDTH
    requires PaddleHit(m.ball, MovePaddle(m.player1, keys.w, keys.s), MovePaddle(m.player2, keys.o, keys.k)).None?
    ensures var b := Step(m, keys, draw).state.ball;
      b.velocity.x == m.ball.velocity.x &&
      (TouchesWall(m.ball) ==> b.velocity.y == -m.ball.velocity.y) &&
      (!TouchesWall(m.ball) ==> b.velocity.y == m.ball.velocity.y) &&
      b.position == m.ball.position.Plus(b.velocity)
  {
  }

  /** The match is over after a tick exactly when one of the scores has
      reached `MAX_POINTS`; player 1 is named the winner when both have. */
  lemma StepOutcome(m: MatchState, keys: Keys, draw: Draw)
    ensures var t := Step(m, keys, draw);
      (t.outcome != Playing <==> t.state.player1Score == MAX_POINTS || t.state.player2Score == MAX_POINTS) &&
      (t.outcome == Player1Wins <==> t.state.player1Score == MAX_POINTS)
  {
  }

  /** Over a whole match started with both scores below `MAX_POINTS` (a new
      match starts at 0), scores never decrease, never pass `MAX_POINTS`,
      and rise by at most one point per tick played. */
  lemma {:induction false} RunKeepsScoresInRange(m: MatchState, inputs: seq<TickInput>)
    requires 0 <= m.player1Score < MAX_POINTS && 0 <= m.player2Score < MAX_POINTS
    ensures var r := Run(m, inputs);
      m.player1Score <= r.player1Score <= MAX_POINTS &&
      m.player2Score <= r.player2Score <= MAX_POINTS &&
      r.player1Score + r.player2Score <= m.player1Score + m.player2Score + |inputs|
    decreases |inputs|
  {
    if inputs != [] {
      var t := Step(m, inputs[0].keys, inputs[0].draw);
      StepScores(m, inputs[0].keys, inputs[0].draw);
      if t.outcome == Playing {
        RunKeepsScoresInRange(t.state, inputs[1..]);
      }
    }
  }

  /** From the opening layout, however the match goes, both scores stay
      between 0 and `MAX_POINTS` and together never exceed the number of
      ticks played. */
  lemma {:induction false} MatchScoresInRange(player1Texture: Texture, player2Texture: Texture, ballTexture: Texture,
                                              draw: Draw, inputs: seq<TickInput>)
    ensures var r := Run(InitialState(player1Texture, player2Texture, ballTexture, draw), inputs);
      0 <= r.player1Score <= MAX_POINTS && 0 <= r.player2Score <= MAX_POINTS &&
      r.player1Score + r.player2Score <= |inputs|
  {
    RunKeepsScoresInRange(InitialState(player1Texture, player2Texture, ballTexture, draw), inputs);
  }
}
