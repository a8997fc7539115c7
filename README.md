# Pong simulation step, modelled in Dafny

This project models the game logic of a small browser Pong game. The player
moves the left paddle with the arrow keys or the mouse. A simple AI moves the
right paddle. Space pauses and resumes the game. Once per animation frame,
`update` moves both paddles and the ball, bounces the ball off the top and
bottom walls, and resolves paddle hits and misses. A miss scores a point and
serves a new ball.

Files:

- `pong.dfy` (module `Pong`) holds the game's constants, the paddle, ball and
  game-state datatypes, and pure functions for each stage of a frame.
  `Tick` composes those stages into one frame. The module also holds the
  lemmas about these functions.
- `game.dfy` (module `PongGame`) holds class `Game`, the mutable game state.
  Its fields are the two paddles, the ball, the two scores, the `running`
  flag and the two arrow-key flags. Each method updates those fields in place.
  Each method except `TogglePause` and `SetArrow` is proved against the
  matching `Pong` function; those two state their effect directly:
  `Update` ensures `State() == Tick(old(State()), …)`.

Modelling choices:

- Coordinates are `real`.
- The canvas width and height are constructor parameters. The constructor
  requires `height >= 100` (the paddle height) and `height >= 16` (twice the
  ball radius).
- `cos` and `sin` are passed in as a `Trig` value, a pair of total functions.
  `Trig.Valid()` states the only facts the proofs use, all on
  [-pi/4, pi/4]: `cos(0) = 1`; `0 < cos(a) <= 1`; `-1 <= sin(a) <= 1`; and
  `sin(a)` has the same sign as `a`. The lemmas that need these facts take
  `Valid()` as a precondition. Nothing assumes them.
- Each `Math.random()` draw is a parameter. The methods that take a draw
  require it to lie in [0, 1), as `Math.random()` guarantees. `angleDraw` sets a
  serve's angle. The coin draw exists only in `Aim.CoinFlip`, because the
  source draws the coin only when `resetBall` gets no direction.
- The source checks `paddle === leftPaddle` to tell the paddles apart. The
  model passes an explicit `Side` instead.
- pi is 3.141592653589793, the decimal JavaScript prints for `Math.PI`.

Behaviour of the code that the model keeps:

- After a miss the ball is served toward the side that scored.
  - A left miss calls `resetBall('right')`, so `vx > 0`.
  - A right miss calls `resetBall('left')`, so `vx < 0`.
- Keyboard and mouse control both act in the same frame. Held arrow keys
  still move the paddle after a mouse move.
- The comment in `resetBall` says the serve angle is within ±30 degrees. The
  code uses `Math.PI / 4`, which is ±45 degrees.

## Model

| member | source | states |
|---|---|---|
| `Pong.Clamp` | script.js:15 | the result lies in [a, b] when a <= b; a value already in [a, b] is returned unchanged; values below a give a, values above b give b |
| `Pong.KeyboardPaddle` | script.js:101-106 | the player's paddle ends on the canvas; only y changes; when the unclamped move stays on the canvas, y moves by exactly -6 for up and +6 for down; a move past the top edge puts the paddle at 0 and a move past the bottom edge puts it at `HEIGHT - h`; holding both keys or neither leaves an in-bounds paddle where it was; up never moves it down and down never moves it up |
| `Pong.AiStep` | script.js:108-116 | before clamping: the right paddle moves down by exactly 4 when its centre is below `ball.y - 6`, up by exactly 4 when its centre is above `ball.y + 6`, and otherwise stays put; outside the dead zone the gap to the ball shrinks by exactly 4 and the centre never crosses the ball |
| `Pong.AiPaddle` | script.js:108-117 | the computer's paddle ends on the canvas; only y changes; the AI step is kept unchanged when it stays on the canvas; a step past the top edge gives 0 and a step past the bottom edge gives `HEIGHT - h` |
| `Pong.WallBounce` | script.js:123-130 | afterwards `ballR <= y <= HEIGHT - ballR`; `abs(vy)` is preserved; touching the top gives `y = ballR` with `vy` negated; touching the bottom gives `y = HEIGHT - ballR` with `vy` negated; otherwise the ball is unchanged; x, vx and speed never change |
| `Pong.RelativeIntersect` | script.js:162-164 | for a ball level with the paddle the value lies in [-1, 1]; it is 0 exactly at the paddle centre and negative exactly above it; it is -1 at the top end and 1 at the bottom end |
| `Pong.BounceAngle` | script.js:162-166 | for a ball level with the paddle the angle lies in [-pi/4, pi/4]; it is 0 exactly at the centre, negative above it and positive below it; it is -pi/4 and pi/4 at the two ends |
| `Pong.BumpSpeed` | script.js:168-169 | a hit never lowers a speed that is at most 12 and never raises it above 12; below 11.6 it adds exactly 0.4, and from 11.6 up it gives 12 |
| `Pong.Deflect` | script.js:161-178 | a hit keeps the ball's y and sets speed to `min(speed + 0.4, 12)`; it moves the ball to `paddle.x + w + ballR + 0.1` on the left and to `paddle.x - ballR - 0.1` on the right |
| `Pong.DeflectHeadsAway` | script.js:171-172 | with cos > 0 on [-pi/4, pi/4], a hit on the left paddle gives `vx > 0` and one on the right gives `vx < 0`; a hit at the paddle centre gives `vx = ±speed`; `abs(vx)` never exceeds the speed |
| `Pong.DeflectVerticalDirection` | script.js:163-173 | `vy < 0` exactly when the ball struck above the paddle centre, and `vy > 0` exactly when it struck below; a hit at the centre gives `vy = 0`; `abs(vy)` never exceeds the speed |
| `Pong.SpeedAfterHitsClosedForm` | script.js:169 | after n hits since a serve the speed is `min(5 + 0.4 n, 12)` |
| `Pong.SpeedAfterHitsMonotone` | script.js:169 | within a rally the speed never decreases and stays in [5, 12] |
| `Pong.ServeDirection` | script.js:41 | the direction is always ±1; `'left'` gives -1 and `'right'` gives +1; with no direction, a draw below 0.5 gives -1 and any other draw gives +1 |
| `Pong.ServeAngle` | script.js:39-40 | a draw in [0, 1) gives an angle in [-pi/4, pi/4) |
| `Pong.Serve` | script.js:34-44 | a serve puts the ball at the canvas centre with speed 5; when `HEIGHT >= 2 ballR` the ball lies between the walls |
| `Pong.ServeHeadsTowards` | script.js:39-43 | with the trig facts and a draw in [0, 1), vx has the sign of the serve direction, and neither component exceeds 5 |
| `Pong.Moved` | script.js:101-130 | the motion half of a frame keeps the game invariant and the ball's speed; it changes only the paddles and the ball |
| `Pong.AfterLeftHit` | script.js:133-137 | without a left hit nothing changes; a hit keeps the ball's y, sets its speed to `min(speed + 0.4, 12)` and moves it to `left.x + w + ballR + 0.1`; the invariant holds, only the ball changes and it is never slowed |
| `Pong.LeftHitSendsBallRight` | script.js:134-137 | with the trig facts, a ball that hits the left paddle leaves with `vx > 0` and `abs(vx)` at most its speed, heading up exactly when it struck above the paddle's centre and down exactly when below |
| `Pong.AfterRightHit` | script.js:147-150 | without a right hit nothing changes; a hit keeps the ball's y, sets its speed to `min(speed + 0.4, 12)` and moves it to `right.x - ballR - 0.1`; the invariant holds, only the ball changes and it is never slowed |
| `Pong.RightHitSendsBallLeft` | script.js:148-150 | with the trig facts, a ball that hits the right paddle leaves with `vx < 0` and `abs(vx)` at most its speed, heading up exactly when it struck above the paddle's centre and down exactly when below |
| `Pong.ResolveLeft` | script.js:133-145 | the left-side check keeps the invariant and changes only the ball and the computer's score; on a left miss the computer's score goes up by exactly 1 and the ball is served right (+1); otherwise that score is unchanged and the ball is not slowed |
| `Pong.ResolveRight` | script.js:147-158 | the right-side check keeps the invariant and changes only the ball and the player's score; on a right miss the player's score goes up by exactly 1 and the ball is served left (-1); otherwise that score is unchanged and the ball is not slowed |
| `Pong.Collide` | script.js:132-158 | the collision half of a frame keeps the invariant and changes only the ball and the scores; either no score changes and the ball is not slowed, or exactly one score goes up by exactly 1 with the matching serve |
| `Pong.Tick` | script.js:98-159 | a frame keeps the invariant: both paddles in `[0, HEIGHT - h]`, the ball in `[ballR, HEIGHT - ballR]`, speed in [5, 12]; a paused frame changes nothing; canvas size, `running` and the keys never change; either both scores stay the same and the ball is not slowed, or the computer gains exactly 1 and the ball is served right (+1), or the player gains exactly 1 and the ball is served left (-1); the speed drops only on a serve, to 5 |
| `Pong.LeftMissScoresForComputer` | script.js:138-143 | the computer's score goes up by 1 exactly on a left miss; the frame then ends with the ball served right; the right-side check does not run, so the right paddle and the player's score are as after the motion |
| `Pong.RightMissScoresForPlayer` | script.js:151-156 | the player's score goes up by 1 exactly when there is no left miss and the ball then misses on the right; the ball is then served left and everything else is as after the left-side check |
| `PongGame.Game.constructor` | script.js:17-25 | start-up: paddles centred vertically at x = 10 and x = `WIDTH - 20`, scores 0, running, no keys held; then the ball is served in a random direction, as the `resetBall()` call at script.js:221 does; the invariant holds |
| `PongGame.Game.ResetBall` | script.js:34-44 | the ball becomes `Serve` in the aimed direction; the invariant is kept |
| `PongGame.Game.HandlePaddleCollision` | script.js:161-178 | the ball becomes `Deflect` for the paddle on the given side; the invariant is kept |
| `PongGame.Game.MovePlayerPaddle` | script.js:101-106 | the left paddle becomes `KeyboardPaddle` of the held keys |
| `PongGame.Game.MoveComputerPaddle` | script.js:108-117 | the right paddle becomes `AiPaddle` of the ball's y before the ball moves |
| `PongGame.Game.MoveBall` | script.js:119-130 | the ball moves by its velocity and then `WallBounce` applies |
| `PongGame.Game.CheckLeftPaddle` | script.js:133-145 | the state becomes `ResolveLeft`; the returned flag is true exactly on a left miss |
| `PongGame.Game.CheckRightPaddle` | script.js:147-158 | the state becomes `ResolveRight` |
| `PongGame.Game.Update` | script.js:98-159 | the new state is `Tick` of the old one, so a paused update changes nothing; the invariant is kept |
| `PongGame.Game.MouseMove` | script.js:189-195 | the left paddle becomes `PointerPaddle`: centred on the pointer, clamped onto the canvas |
| `Pong.PointerPaddle` | script.js:193 | the paddle ends on the canvas; its centre equals the pointer's y whenever that is reachable; otherwise it sits against the nearer edge |
| `PongGame.Game.TogglePause` | script.js:197-199 | `running` flips and the invariant is kept |
| `PongGame.Game.SetArrow` | script.js:208-217 | pressing or releasing an arrow key sets that key's held flag and leaves the other one unchanged |

## Left out

- Drawing is not modelled: `drawNet`, `draw`, `roundRect`, `circle` (script.js:46-96). These functions only issue canvas calls and change no game state.
- The frame loop is not modelled: `loop`, `requestAnimationFrame`, `performance.now`, `lastTime` (script.js:180-186, 202-203, 226-227). `update` ignores its `dt` argument, so `Update` takes no time parameter. The model assumes one `Update` per display frame. The source does not keep to this after a resume: `loop` always schedules itself again (script.js:185), and the Space handler schedules one more `loop` on every resume (script.js:200-204). So each pause and resume adds one more `update` call per display frame, and the game runs faster after each resume.
- The score elements on the page are not modelled (script.js:141, 154, 224-225). Listener registration and the empty resize handler are not modelled either.
- `usingMouse` is not modelled. The code writes it but never reads it.
- A paddle's `vy` field is not modelled. It is always 0 and never read.
- `Math.random`, `Math.cos` and `Math.sin` are foreign calls. The random draws are parameters, and cos and sin are abstract functions limited by `Trig.Valid()`.
- IEEE double rounding is not modelled. All arithmetic is exact on `real`.
- Pong.DeflectHeadsAway: does not state that the new velocity has magnitude `speed`. The proof would need `cos² + sin² = 1`, and cos and sin are abstract.
- Pong.ServeHeadsTowards: does not state that a serve's velocity has magnitude 5, for the same reason.
- Pong.RelativeIntersect: requires `h > 0`. Every paddle has height 100, and with height 0 the division would be undefined.
- Pong.Tick: requires the game invariant `Inv`. Every reachable state satisfies it: the constructor establishes it and every method preserves it.
- PongGame.Game.Update: splits its body into helper methods (`MovePlayerPaddle`, `MoveComputerPaddle`, `MoveBall`, `CheckLeftPaddle`, `CheckRightPaddle`). `update` is one function in the source. The split keeps each proof small. A left miss still ends the frame before the right side is checked.
