/** The rules of one simulation tick, as pure functions over a value of the
    whole match state. `Game.GameState.Tick` carries them out in place and is
    proved to agree with `Step`. */
module Rules {
  import opened Geometry
  import opened Entities

  const WINDOW_HEIGHT: real := 480.0
  const WINDOW_WIDTH: real := 640.0
  /** Distance a paddle moves per tick while a key is held. */
  const PADDLE_SPEED: real := 8.0
  /** Horizontal speed of a freshly served ball. */
  const BALL_SPEED: real := 5.0
  /** How strongly an off-centre paddle hit bends the ball's vertical speed. */
  const PADDLE_SPIN: real := 4.0
  /** The score that ends the match. */
  const MAX_POINTS: int := 10
  /** Gap between each paddle and its side of the window. */
  const PADDLE_MARGIN: real := 16.0

  /** A value of the two-way random draw that decides the serve direction. */
  type Draw = d: int | 0 <= d < 2

  datatype Option<T> = None | Some(value: T)

  /** The four movement keys: W and S move player 1 up and down, O and K
      move player 2 up and down. */
  datatype Keys = Keys(w: bool, s: bool, o: bool, k: bool)

  /** What a tick signals to the host: keep playing, or the match is over
      and who won. */
  datatype Outcome = Playing | Player1Wins | Player2Wins

  /** Everything the simulation keeps between ticks. */
  datatype MatchState = MatchState(
    player1: Entity,
    player2: Entity,
    ball: Entity,
    player1Score: int,
    player2Score: int)

  datatype TickResult = TickResult(state: MatchState, outcome: Outcome)

  /** The velocity a serve gives the ball: full speed to the right on a
      draw of 0, full speed to the left on a draw of 1, never any vertical
      component. */
  function ServeVelocity(draw: Draw): (v: Vec2)
    ensures v.y == 0.0
    ensures v.x == BALL_SPEED || v.x == -BALL_SPEED
    ensures v.x > 0.0 <==> draw == 0
  {
    if draw == 0 then Vec2(BALL_SPEED, 0.0) else Vec2(-BALL_SPEED, 0.0)
  }

  /** Where a ball of the given texture sits when it is placed in the middle
      of the field: its centre is the centre of the window. */
  function CentreSpot(texture: Texture): (p: Vec2)
    ensures Entity(texture, p, Vec2(0.0, 0.0)).Centre() == Vec2(WINDOW_WIDTH / 2.0, WINDOW_HEIGHT / 2.0)
    ensures 0.0 < p.x + texture.width as real && p.x < WINDOW_WIDTH
  {
    Vec2(WINDOW_WIDTH / 2.0 - texture.width as real / 2.0,
         WINDOW_HEIGHT / 2.0 - texture.height as real / 2.0)
  }

  /** The state at the start of a match: player 1 `PADDLE_MARGIN` from the
      left edge, player 2 `PADDLE_MARGIN` from the right edge, both paddles
      at rest and vertically centred, the ball in the middle of the field
      with a serve velocity, and both scores 0. */
  function InitialState(player1Texture: Texture, player2Texture: Texture, ballTexture: Texture, draw: Draw): (m: MatchState)
    ensures m.player1.texture == player1Texture && m.player2.texture == player2Texture
    ensures m.ball.texture == ballTexture
    ensures m.player1.position.x == PADDLE_MARGIN
    ensures m.player2.position.x + m.player2.Width() == WINDOW_WIDTH - PADDLE_MARGIN
    ensures m.player1.Centre().y == WINDOW_HEIGHT / 2.0 && m.player2.Centre().y == WINDOW_HEIGHT / 2.0
    ensures m.player1.velocity == Vec2(0.0, 0.0) && m.player2.velocity == Vec2(0.0, 0.0)
    ensures m.ball.Centre() == Vec2(WINDOW_WIDTH / 2.0, WINDOW_HEIGHT / 2.0)
    ensures m.ball.velocity == ServeVelocity(draw)
    ensures m.ball.velocity.y == 0.0 && (m.ball.velocity.x == BALL_SPEED || m.ball.velocity.x == -BALL_SPEED)
    ensures m.ball.velocity.x > 0.0 <==> draw == 0
    ensures m.player1Score == 0 && m.player2Score == 0
  {
    var player1Position := Vec2(PADDLE_MARGIN, (WINDOW_HEIGHT - player1Texture.height as real) / 2.0);
    var player2Position := Vec2(WINDOW_WIDTH - player2Texture.width as real - PADDLE_MARGIN,
                                (WINDOW_HEIGHT - player2Texture.height as real) / 2.0);
    MatchState(
      Entity(player1Texture, player1Position, Vec2(0.0, 0.0)),
      Entity(player2Texture, player2Position, Vec2(0.0, 0.0)),
      Entity(ballTexture, CentreSpot(ballTexture), ServeVelocity(draw)),
      0, 0)
  }

  /** Moves a paddle for one tick: the "up" key subtracts `PADDLE_SPEED`
      from y, then the "down" key adds it. Nothing is clamped to the field. */
  function MovePaddle(paddle: Entity, up: bool, down: bool): (r: Entity)
    ensures r.texture == paddle.texture && r.velocity == paddle.velocity
    ensures r.position.x == paddle.position.x
    ensures up && !down ==> r.position.y == paddle.position.y - PADDLE_SPEED
    ensures down && !up ==> r.position.y == paddle.position.y + PADDLE_SPEED
    ensures up == down ==> r == paddle
  {
    var raised := if up then paddle.(position := paddle.position.(y := paddle.position.y - PADDLE_SPEED)) else paddle;
    if down then raised.(position := raised.position.(y := raised.position.y + PADDLE_SPEED)) else raised
  }

  /** The paddle the ball hits this tick, if any. Player 1's paddle is
      tested first, so player 2's paddle counts only when the ball does not
      touch player 1's. */
  function PaddleHit(ball: Entity, player1: Entity, player2: Entity): (r: Option<Entity>)
    ensures r.Some? <==> ball.Bounds().Intersects(player1.Bounds()) || ball.Bounds().Intersects(player2.Bounds())
    ensures ball.Bounds().Intersects(player1.Bounds()) ==> r == Some(player1)
    ensures r.Some? ==> (r.value == player1 || r.value == player2) && ball.Bounds().Intersects(r.value.Bounds())
  {
    if ball.Bounds().Intersects(player1.Bounds()) then Some(player1)
    else if ball.Bounds().Intersects(player2.Bounds()) then Some(player2)
    else None
  }

  /** The ball after bouncing off a paddle: it reverses horizontally and
      picks up spin in proportion to how far from the paddle's centre it
      struck, measured in paddle heights. A ball below the paddle's centre
      speeds up downwards, one above it upwards, and a dead-centre hit adds
      no spin. */
  function Deflect(ball: Entity, paddle: Entity): (r: Entity)
    ensures r.texture == ball.texture && r.position == ball.position
    ensures r.velocity.x == -ball.velocity.x
    ensures (r.velocity.y - ball.velocity.y) * paddle.Height() == PADDLE_SPIN * (ball.Centre().y - paddle.Centre().y)
    ensures r.velocity.y > ball.velocity.y <==> ball.Centre().y > paddle.Centre().y
    ensures r.velocity.y < ball.velocity.y <==> ball.Centre().y < paddle.Centre().y
  {
    var offset := (paddle.Centre().y - ball.Centre().y) / paddle.Height();
    assert offset * paddle.Height() == paddle.Centre().y - ball.Centre().y;
    ball.(velocity := Vec2(-ball.velocity.x, ball.velocity.y + PADDLE_SPIN * -offset))
  }

  /** The ball touches the top or the bottom of the window. */
  predicate TouchesWall(ball: Entity)
  {
    ball.position.y <= 0.0 || ball.position.y + ball.Height() >= WINDOW_HEIGHT
  }

  /** The ball after the wall rule: its vertical speed is negated when it
      touches a wall; its position is not corrected. */
  function WallBounce(ball: Entity): (r: Entity)
    ensures r.texture == ball.texture && r.position == ball.position
    ensures r.velocity.x == ball.velocity.x
    ensures TouchesWall(ball) ==> r.velocity.y == -ball.velocity.y
    ensures !TouchesWall(ball) ==> r == ball
  {
    if TouchesWall(ball) then ball.(velocity := ball.velocity.(y := -ball.velocity.y)) else ball
  }

  /** The ball put back in the middle of the field with a fresh serve; all
      speed and spin gathered during the rally are dropped. */
  function Serve(ball: Entity, draw: Draw): (r: Entity)
    ensures r.texture == ball.texture
    ensures r.Centre() == Vec2(WINDOW_WIDTH / 2.0, WINDOW_HEIGHT / 2.0)
    ensures r.velocity.y == 0.0 && (r.velocity.x == BALL_SPEED || r.velocity.x == -BALL_SPEED)
  {
    ball.(position := CentreSpot(ball.texture), velocity := ServeVelocity(draw))
  }

  /** The left goal: a ball past the left edge scores for player 2 and is
      served again. */
  function LeftGoal(m: MatchState, draw: Draw): (r: MatchState)
    ensures r.player1 == m.player1 && r.player2 == m.player2 && r.player1Score == m.player1Score
    ensures m.ball.position.x < 0.0 ==> r.player2Score == m.player2Score + 1 && r.ball == Serve(m.ball, draw)
    ensures m.ball.position.x >= 0.0 ==> r == m
  {
    if m.ball.position.x < 0.0 then
      m.(player2Score := m.player2Score + 1, ball := Serve(m.ball, draw))
    else m
  }

  /** The right goal: a ball past the right edge scores for player 1 and is
      served again. */
  function RightGoal(m: MatchState, draw: Draw): (r: MatchState)
    ensures r.player1 == m.player1 && r.player2 == m.player2 && r.player2Score == m.player2Score
    ensures m.ball.position.x > WINDOW_WIDTH ==> r.player1Score == m.player1Score + 1 && r.ball == Serve(m.ball, draw)
    ensures m.ball.position.x <= WINDOW_WIDTH ==> r == m
  {
    if m.ball.position.x > WINDOW_WIDTH then
      m.(player1Score := m.player1Score + 1, ball := Serve(m.ball, draw))
    else m
  }

  /** The game-over check: player 1 reaching `MAX_POINTS` is tested first. */
  function Verdict(player1Score: int, player2Score: int): (o: Outcome)
    ensures o == Player1Wins <==> player1Score == MAX_POINTS
    ensures o == Player2Wins <==> player2Score == MAX_POINTS && player1Score != MAX_POINTS
    ensures o == Playing <==> player1Score != MAX_POINTS && player2Score != MAX_POINTS
  {
    if player1Score == MAX_POINTS then Player1Wins
    else if player2Score == MAX_POINTS then Player2Wins
    else Playing
  }

  /** One Euler step: the ball moves by its velocity. */
  function Advance(ball: Entity): Entity
  {
    ball.(position := ball.position.Plus(ball.velocity))
  }

  /** The ball after the paddle rule and the wall rule, before any goal. */
  function Rebound(ball: Entity, player1: Entity, player2: Entity): Entity
  {
    var hit := PaddleHit(ball, player1, player2);
    WallBounce(if hit.Some? then Deflect(ball, hit.value) else ball)
  }

  /** The state just before the game-over check: paddles moved, the ball
      rebounded and goals scored. */
  function Settle(m: MatchState, keys: Keys, draw: Draw): MatchState
  {
    var player1 := MovePaddle(m.player1, keys.w, keys.s);
    var player2 := MovePaddle(m.player2, keys.o, keys.k);
    var ball := Rebound(m.ball, player1, player2);
    RightGoal(LeftGoal(MatchState(player1, player2, ball, m.player1Score, m.player2Score), draw), draw)
  }

  /** One tick: move the paddles, bounce the ball off a paddle and the walls,
      score, decide whether the match is over, and finally advance the ball,
      which happens on the game-over tick as well. */
  function Step(m: MatchState, keys: Keys, draw: Draw): TickResult
  {
    var settled := Settle(m, keys, draw);
    TickResult(settled.(ball := Advance(settled.ball)), Verdict(settled.player1Score, settled.player2Score))
  }

  /** One tick's input: the keys held and the value of the serve draw. */
  datatype TickInput = TickInput(keys: Keys, draw: Draw)

  /** The host's game loop: the ticks are run in order until one of them
      signals the end of the match; no tick runs after that. */
  function Run(m: MatchState, inputs: seq<TickInput>): MatchState
    decreases |inputs|
  {
    if inputs == [] then m
    else
      var r := Step(m, inputs[0].keys, inputs[0].draw);
      if r.outcome != Playing then r.state else Run(r.state, inputs[1..])
  }
}
