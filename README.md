# Pong simulation core, modelled in Dafny

This project models the per-tick simulation of a two-player Pong game written
in Rust on the tetra engine (`src/main.rs`). Two paddles and a ball are
*entities*. An entity is a texture (which fixes its size), a position and a
velocity. Once per frame the game:

1. moves the paddles from the held keys;
2. bounces the ball off the first paddle it overlaps, with player 1's paddle
   tested first, adding spin;
3. bounces the ball off the top or bottom wall;
4. scores goals and serves the ball again from the middle;
5. checks whether a player has reached `MAX_POINTS`;
6. advances the ball by its velocity.

Files and modules:

- `geometry.dfy` (`Geometry`): vectors and axis-aligned rectangles.
- `entities.dfy` (`Entities`): `Texture` and `Entity` with `Width`,
  `Height`, `Bounds` and `Centre`. In the source an entity is a struct held by
  value, so here it is a datatype.
- `rules.dfy` (`Rules`): the game's constants and each rule of a tick as a
  pure function. `Step` composes them into one whole tick. `Run` is the host's
  loop: it plays ticks until one of them ends the match.
- `game_state.dfy` (`Game`): the class `GameState`. Its fields (two paddles,
  the ball, two scores) are updated in place by the constructor and by `Tick`
  and its three phase methods. `Tick` is proved to produce exactly the state and
  outcome that `Step` describes.
- `properties.dfy` (`Properties`): lemmas about single ticks and whole
  matches.

The model keeps the source's quirks:

- paddles are never clamped to the field;
- the wall bounce does not move the ball back inside the field;
- the ball still advances on the tick that ends the match;
- the ball advances at the end of every tick, including a tick with a goal,
  so after a goal it ends the tick one serve step away from the centre spot,
  not on it.

Coordinates are `real`. Texture sizes are positive whole numbers of pixels,
converted to coordinates as the source's `as f32` does. Tetra's rectangle
test is not visible here. It is modelled as strict overlap, so boxes that
only touch along an edge do not intersect. No lemma depends on that case. The random serve
direction `gen_range(0..2)` is an input `draw` of type `Draw` (0 or 1). The
held keys are an input of type `Keys`.

## Model

| member | source | states |
|---|---|---|
| `Entities.Entity.Width` | src/main.rs:58-60 | an entity's width is its texture's width and is positive |
| `Entities.Entity.Height` | src/main.rs:62-64 | an entity's height is its texture's height and is positive |
| `Entities.Entity.Bounds` | src/main.rs:67-74 | the box's top-left corner is the entity's position: it contains the position and no point of it lies left of or above it; it is sized width × height |
| `Entities.Entity.Centre` | src/main.rs:77-82 | the centre lies inside the bounds, halfway between the left and right edges and halfway between the top and bottom edges |
| `Rules.ServeVelocity` | src/main.rs:164-173 | a serve is `(BALL_SPEED, 0)` on draw 0 and `(-BALL_SPEED, 0)` on draw 1, with no other value possible |
| `Rules.CentreSpot` | src/main.rs:133-136 | the serve spot puts the ball's centre on the window's centre, inside both side edges |
| `Rules.InitialState` | src/main.rs:117-142 | opening layout: player 1 is 16 px from the left edge and player 2 is 16 px from the right edge; both paddles are at rest and vertically centred; the ball is centred with velocity exactly `(BALL_SPEED, 0)` on draw 0 or `(-BALL_SPEED, 0)` on draw 1; both scores are 0 |
| `Rules.MovePaddle` | src/main.rs:199-215 | "up" lowers y by exactly `PADDLE_SPEED` and "down" raises it by exactly that much; both keys or none leave the paddle unchanged; x, velocity and size never change; no clamping |
| `Rules.PaddleHit` | src/main.rs:217-228 | a hit happens exactly when the ball overlaps a paddle; overlapping player 1 always selects player 1; the paddle selected is one the ball overlaps |
| `Rules.Deflect` | src/main.rs:230-239 | a hit negates `velocity.x` and keeps the position; `velocity.y` changes by `PADDLE_SPIN` × (ball centre y − paddle centre y) / paddle height; it rises exactly when the ball is below the paddle's centre and falls exactly when it is above |
| `Rules.WallBounce` | src/main.rs:241-244 | `velocity.y` is negated exactly when `y <= 0` or `y + height >= WINDOW_HEIGHT`; `velocity.x` and the position are never touched |
| `Rules.Serve` | src/main.rs:252-263 | a served ball has its centre on the window's centre and velocity `(±BALL_SPEED, 0)`; its size is kept |
| `Rules.LeftGoal` | src/main.rs:247-264 | a ball with `x < 0` raises player 2's score by exactly 1 and is served again; otherwise nothing changes; paddles and player 1's score are never touched |
| `Rules.RightGoal` | src/main.rs:266-285 | a ball with `x > WINDOW_WIDTH` raises player 1's score by exactly 1 and is served again; otherwise nothing changes; paddles and player 2's score are never touched |
| `Rules.Verdict` | src/main.rs:288-295 | player 1 wins exactly when their score equals `MAX_POINTS`; player 2 wins only when player 1 has not won; play goes on exactly when neither score equals `MAX_POINTS` |
| `Game.GameState.constructor` | src/main.rs:112-161 | a new game is in the opening layout that `InitialState` describes |
| `Game.GameState.SetBallVelocity` | src/main.rs:164-173 | the draw yields `(BALL_SPEED, 0)` or `(-BALL_SPEED, 0)`, as `ServeVelocity` says |
| `Game.GameState.Tick` | src/main.rs:197-300 | one in-place update leaves exactly the state and outcome that `Step` gives for the old state, the keys and the draw |
| `Game.GameState.MovePaddles` | src/main.rs:198-215 | the paddle fields become `MovePaddle` of their old values; the ball and the scores are unchanged |
| `Game.GameState.ReboundBall` | src/main.rs:217-244 | the ball field becomes the old ball after the paddle rule, then the wall rule; paddles and scores are unchanged |
| `Game.GameState.ScoreGoals` | src/main.rs:246-285 | the state becomes the left-goal rule and then the right-goal rule applied to the old state |
| `Properties.StepMovesPaddles` | src/main.rs:199-215 | over a tick, each paddle's y changes by −`PADDLE_SPEED` for "up" plus +`PADDLE_SPEED` for "down", independently; x, velocity and size are kept |
| `Properties.Player1HitHasPriority` | src/main.rs:222-228 | when the ball overlaps player 1's paddle, player 2's paddle has no effect; the bounce is player 1's deflection followed by the wall rule |
| `Properties.DeadCentreHitAddsNoSpin` | src/main.rs:234-238 | a dead-centre hit gives velocity `(-vx, vy)` |
| `Properties.ReboundKeepsPosition` | src/main.rs:217-244 | the paddle and wall rules keep the ball's position and size; `velocity.x` is negated exactly when a paddle is hit |
| `Properties.StepScores` | src/main.rs:246-285 | over a tick, `x < 0` at the tick's start gives player 2 exactly +1 and player 1 nothing; `x > WINDOW_WIDTH` gives the reverse; otherwise both scores are unchanged; so at most one score changes |
| `Properties.StepMovesBall` | src/main.rs:252-298 | after a goal, the ball ends one serve step from the centre spot (the opening spot) with velocity exactly `(±BALL_SPEED, 0)`; otherwise it ends at its old position plus its bounced velocity; this holds on the game-over tick too |
| `Properties.StepWallBounce` | src/main.rs:241-244 | with no hit and no goal, a tick negates `velocity.y` exactly on a wall touch; `velocity.x` is kept and the position is not corrected |
| `Properties.StepOutcome` | src/main.rs:288-295 | a tick ends the match exactly when a score equals `MAX_POINTS`; player 1 is checked first |
| `Properties.RunKeepsScoresInRange` | src/main.rs:246-295 | over any sequence of ticks that stops at game over, starting below `MAX_POINTS`: scores never decrease, never exceed `MAX_POINTS`, and rise by at most one point per tick in total |
| `Properties.MatchScoresInRange` | src/main.rs:140-142 | from the opening layout, both scores stay within `0..MAX_POINTS`, and their sum is at most the number of ticks played |

## Left out

- Rendering is not modelled: `draw`, textures as images, score `Text` and `Font` objects, and the text offsets. A texture is modelled only by its size.
- Loading a texture or font can fail in `GameState::new` and `update`. These failures belong to the engine and are not modelled.
- `main`, the window builder, quit-on-escape, `window::quit` and the winner's `println!` are not modelled. Game over is the `Outcome` value that `Tick` returns. `Run` stands for the engine's loop. The model assumes that the host plays no tick after the one that signals game over.
- Keyboard input (`input::is_key_down`) is an input: a `Keys` value holding the four held keys W, S, O, K.
- The random draw `rand::thread_rng().gen_range(0..2)` is an input `draw` of type `Draw`, holding 0 or 1. The source's fall-through for any other value can never happen. The source may draw twice in one tick, once per goal test, but the two goals are proved exclusive (`Properties.StepScores`). One `draw` per tick is therefore enough.
- 32-bit float rounding is not modelled: coordinates and velocities are `real`.
- The scores' 32-bit integers are modelled as `int`. A match stops at `MAX_POINTS` = 10, so they never come close to overflowing.
- Tetra's `Rectangle::intersects` is not visible here. It is modelled as strict overlap, so boxes that only touch along an edge do not intersect. No lemma depends on that case.
- The update is split into three phase methods (`MovePaddles`, `ReboundBall`, `ScoreGoals`), called in the source's order from `Tick`. The source does all of it in one function body.
- A paddle hit never changes the ball's horizontal speed, only its direction and its spin.
- Three behaviours of the code worth noting, all kept in the model:
  - On the game-over tick, the ball still advances.
  - After a goal, only the ball is reset; paddles and scores are kept.
  - After a goal, the ball ends its tick one serve step away from the centre spot, not on it.
