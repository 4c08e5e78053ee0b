/** The running match: two paddles, the ball and the two scores, updated in
    place once per tick. */
module Game {
  import opened Geometry
  import opened Entities
  import opened Rules

  class GameState {
    var player1: Entity
    var player2: Entity
    var ball: Entity
    var player1Score: int
    var player2Score: int

    /** The match state as a value, for the specification. */
    function State(): MatchState
      reads this
    {
      MatchState(player1, player2, ball, player1Score, player2Score)
    }

    /** Starts a match: paddles placed from their texture sizes, the ball
        centred and served in the direction `draw` picks, scores at zero. */
    constructor (player1Texture: Texture, player2Texture: Texture, ballTexture: Texture, draw: Draw)
      ensures State() == InitialState(player1Texture, player2Texture, ballTexture, draw)
    {
      var player1Position := Vec2(PADDLE_MARGIN, (WINDOW_HEIGHT - player1Texture.height as real) / 2.0);
      var player2Position := Vec2(WINDOW_WIDTH - player2Texture.width as real - PADDLE_MARGIN,
                                  (WINDOW_HEIGHT - player2Texture.height as real) / 2.0);
      var ballPosition := Vec2(WINDOW_WIDTH / 2.0 - ballTexture.width as real / 2.0,
                               WINDOW_HEIGHT / 2.0 - ballTexture.height as real / 2.0);
      var ballVelocity := SetBallVelocity(draw);
      player1 := Entity(player1Texture, player1Position, Vec2(0.0, 0.0));
      player2 := Entity(player2Texture, player2Position, Vec2(0.0, 0.0));
      ball := Entity(ballTexture, ballPosition, ballVelocity);
      player1Score := 0;
      player2Score := 0;
    }

    /** Picks the initial direction of the ball from the draw: to the right
        at `BALL_SPEED` on 0, to the left on 1; never any vertical speed. */
    static method SetBallVelocity(draw: Draw) returns (velocity: Vec2)
      ensures velocity == ServeVelocity(draw)
      ensures velocity.y == 0.0 && (velocity.x == BALL_SPEED || velocity.x == -BALL_SPEED)
    {
      velocity := Vec2(0.0, 0.0);
      if draw == 0 {
        velocity := Vec2(BALL_SPEED, 0.0);
      } else if draw == 1 {
        velocity := Vec2(-BALL_SPEED, 0.0);
      }
    }

    /** Runs one tick of the simulation with the given keys held and the
        given value of the serve draw, and says whether the match is over.
        The new state is the one `Step` describes: the phases below run in
        order, and the ball advances by its velocity on every tick, the
        game-over tick included. */
    method Tick(keys: Keys, draw: Draw) returns (outcome: Outcome)
      modifies this
      ensures State() == Step(old(State()), keys, draw).state
      ensures outcome == Step(old(State()), keys, draw).outcome
    {
      MovePaddles(keys);
      ReboundBall();
      ScoreGoals(draw);

      // Game over
      if player1Score == MAX_POINTS {
        outcome := Player1Wins;
      } else if player2Score == MAX_POINTS {
        outcome := Player2Wins;
      } else {
        outcome := Playing;
      }

      // Euler step
      ball := ball.(position := ball.position.Plus(ball.velocity));
    }

    /** First phase of a tick: each held key moves its paddle by
        `PADDLE_SPEED`, "up" before "down". */
    method MovePaddles(keys: Keys)
      modifies this
      ensures player1 == MovePaddle(old(player1), keys.w, keys.s)
      ensures player2 == MovePaddle(old(player2), keys.o, keys.k)
      ensures ball == old(ball)
      ensures player1Score == old(player1Score) && player2Score == old(player2Score)
    {
      if keys.w {
        player1 := player1.(position := player1.position.(y := player1.position.y - PADDLE_SPEED));
      }
      if keys.s {
        player1 := player1.(position := player1.position.(y := player1.position.y + PADDLE_SPEED));
      }
      if keys.o {
        player2 := player2.(position := player2.position.(y := player2.position.y - PADDLE_SPEED));
      }
      if keys.k {
        player2 := player2.(position := player2.position.(y := player2.position.y + PADDLE_SPEED));
      }
    }

    /** Second phase of a tick: the ball bounces off the first paddle it
        overlaps, player 1's tested first, then off the top or bottom wall. */
    method ReboundBall()
      modifies this
      ensures ball == Rebound(old(ball), player1, player2)
      ensures player1 == old(player1) && player2 == old(player2)
      ensures player1Score == old(player1Score) && player2Score == old(player2Score)
    {
      var player1Bounds := player1.Bounds();
      var player2Bounds := player2.Bounds();
      var ballBounds := ball.Bounds();
      var paddleHit := if ballBounds.Intersects(player1Bounds) then Some(player1)
                       else if ballBounds.Intersects(player2Bounds) then Some(player2)
                       else None;
      if paddleHit.Some? {
        var paddle := paddleHit.value;
        ball := ball.(velocity := ball.velocity.(x := -ball.velocity.x));
        var offset := (paddle.Centre().y - ball.Centre().y) / paddle.Height();
        ball := ball.(velocity := ball.velocity.(y := ball.velocity.y + PADDLE_SPIN * -offset));
      }
      if ball.position.y <= 0.0 || ball.position.y + ball.Height() >= WINDOW_HEIGHT {
        ball := ball.(velocity := ball.velocity.(y := -ball.velocity.y));
      }
    }

    /** Third phase of a tick: a ball past the left edge scores for player 2,
        then a ball past the right edge scores for player 1; each goal puts
        the ball back in the middle with a serve picked by `draw`. */
    method ScoreGoals(draw: Draw)
      modifies this
      ensures State() == RightGoal(LeftGoal(old(State()), draw), draw)
    {
      if ball.position.x < 0.0 {
        player2Score := player2Score + 1;
        ball := ball.(position := Vec2(WINDOW_WIDTH / 2.0 - ball.Width() / 2.0,
                                       WINDOW_HEIGHT / 2.0 - ball.Height() / 2.0));
        if draw == 0 {
          ball := ball.(velocity := Vec2(BALL_SPEED, 0.0));
        } else if draw == 1 {
          ball := ball.(velocity := Vec2(-BALL_SPEED, 0.0));
        }
      }
      if ball.position.x > WINDOW_WIDTH {
        player1Score := player1Score + 1;
        ball := ball.(position := Vec2(WINDOW_WIDTH / 2.0 - ball.Width() / 2.0,
                                       WINDOW_HEIGHT / 2.0 - ball.Height() / 2.0));
        if draw == 0 {
          ball := ball.(velocity := Vec2(BALL_SPEED, 0.0));
        } else if draw == 1 {
          ball := ball.(velocity := Vec2(-BALL_SPEED, 0.0));
        }
      }
    }
  }
}
