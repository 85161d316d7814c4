# Pong frame updater, modelled in Dafny

This project models the per-frame game logic of a two-paddle Pong board written as
React components. On every animation frame the component calls `setState` with an
updater. The updater takes the previous world and the current key snapshot and runs
these steps in order:

1. It moves the paddles, clamped to `[0, BOARD_WIDTH - PADDLE_WIDTH]`.
2. It moves the ball one step along its velocity.
3. It flips `vx` when the ball is past a side wall. The ball is not moved back.
4. It tests the top paddle, then the bottom paddle, with a point-in-frame check. A hit
   negates `vy` and puts the ball just outside that paddle.
5. It scores a ball that has passed the top or bottom edge. A point starts a fresh round
   from `initialState()` and keeps the scores.

The repository has two copies of this updater:

- `src/App.js` drives both paddles from four key intents.
- `src/PongBoard.js` drives only the bottom paddle, from two intents.

Both files define the same constants, the same `clamp` and the same `initialState`.

Files:

- `pong.dfy`, module `Pong`, holds everything the two components share:
  - the constants and the `World` record (ball, paddles, scores);
  - `Clamp` and `InitialState`;
  - `MovePaddle`, the step of one paddle, with its imperative form `StepPaddle`;
  - `Advance`, the ball step (flight, wall bounce, paddle rebound, scoring);
  - the invariant `Valid`;
  - the rules of the frame, stated as lemmas.
- `app.dfy`, module `App`, holds the four-key frame:
  - `Tick` is the updater. It is written as statements over local variables and
    proved equal to the specification function `Next`;
  - `Game` is the component's `useState` cell together with the Reset handler;
  - `Run` plays many frames, with lemmas over such runs.
- `pongboard.dfy`, module `PongBoard`, holds the two-key frame: `Tick`, `Next`, and
  the lemmas that the top paddle never leaves the centre and the bottom paddle never
  leaves the board.

Where the updater calls `Math.random()` (inside `initialState()`), the model takes two
booleans, `coinX` and `coinY`. `true` means the draw was above 0.5, which launches the
ball with a positive velocity on that axis.

Neither file has a swept collision test, a rebound angle from the hit offset, a
speed-up on hits, clamping of the ball at the side walls, or a score limit, so the
model has none either. Collisions use a point-in-frame test, a hit only negates the
velocity, a ball past a side wall stays there for one frame, and the game plays
forever.

In the code, each paddle is moved by two statements, the left intent then the right
intent. The model writes these two statements once, as the method `Pong.StepPaddle`,
and both `Tick` methods call it once per driven paddle. The order of the statements and
the values they compute are unchanged.

## Model

| member | source | states |
|---|---|---|
| `Pong.Clamp` | src/App.js:13-15 | When `lo <= hi` the result lies in `[lo, hi]`. A value already in range is returned unchanged. A value below or above the range goes to the nearer bound. When the bounds cross, `lo` wins (the outer `Math.max`). The same function is at src/PongBoard.js:12-14. |
| `Pong.InitialState` | src/App.js:17-32 | A fresh world has the ball and both paddles centred, speed `BALL_SPEED` on both axes with the signs given by the two coins, and both scores 0. The same function is at src/PongBoard.js:16-31. |
| `Pong.InitialStateValid` | src/App.js:17-32 | A fresh world satisfies the invariant `Valid`. |
| `Pong.StepPaddle` | src/App.js:75-78 | The two statements that move one paddle compute `MovePaddle`: the left move first, then the right move, each clamped. |
| `Pong.MovePaddleRules` | src/App.js:75-82 | For a paddle on the board, the paddle step keeps it on the board. No key leaves it unchanged. Left alone gives `max(p-6, 0)`. Right alone gives `min(p+6, 320)`. Both keys give `max(p, 6)`: right is applied last. |
| `Pong.HeldKeyLandsOnBoard` | src/App.js:75-82 | Holding any key puts the paddle on the board, wherever it started. |
| `Pong.AdvanceKeepsSpeed` | src/App.js:84-122 | A frame that scores nothing keeps `abs(vx)` and `abs(vy)`. When both speeds are `BALL_SPEED`, they still are after any frame, including a new round. |
| `Pong.WallRule` | src/App.js:84-89 | In a frame without a point, the ball's x is exactly `x + vx`, not clamped. `vx` changes sign exactly when that x is `< 0` or `> 388`; otherwise it is kept. |
| `Pong.TopHitRule` | src/App.js:91-100 | A ball moving up whose stepped y is `< 20` and that overlaps the top paddle leaves with positive `vy` at `y = 22`. No point is scored and the paddles are unchanged. |
| `Pong.BottomHitRule` | src/App.js:102-111 | A ball moving down whose stepped lower edge is `> 580` and that overlaps the bottom paddle leaves with negative `vy` at `y = 566`. No point is scored. |
| `Pong.ReboundOnlyOnHit` | src/App.js:91-111 | In a frame without a point, `vy` is negated exactly when the ball, moving towards a paddle, has entered that paddle's band and overlaps it. |
| `Pong.ScoringRule` | src/App.js:113-128 | A ball above the top edge gives the bottom side one point; below the bottom edge, the top side one point. Either way the new round is centred, keeps the scores and uses the coins' launch. Otherwise the world is the moved ball with the same paddles and scores. |
| `Pong.ScoresMonotone` | src/App.js:113-122 | Scores never decrease, and at most one point is won per frame. |
| `Pong.AdvanceKeepsBallOnBoard` | src/App.js:113-128 | After any frame the ball's y lies in `[0, 588]`. |
| `Pong.AdvanceKeepsInPlay` | src/App.js:84-122 | A ball in play stays in play: speeds stay `BALL_SPEED`, it is at most one step past a side wall and is then heading back, and its y stays on the board. |
| `Pong.QuietFrame` | src/App.js:84-128 | With no wall, paddle or scoring event, the result is the ball moved by its velocity, the same velocity, and the same paddles and scores. |
| `App.Tick` | src/App.js:67-129 | The statement-by-statement updater computes exactly `Next`: the paddle step, then `Advance` on the moved paddles. |
| `App.PaddleStepRules` | src/App.js:74-82 | Both paddles stay on the board. Each paddle depends only on its own pair of intents. With both intents held, a paddle ends at `clamp(clamp(p-6, 0, 320)+6, 0, 320)`, which equals `max(p, 6)`. |
| `App.NextKeepsPaddlesOnBoard` | src/App.js:74-122 | Paddles that start in `[0, 320]` are in `[0, 320]` after any frame, for every key combination and on the new-round path. |
| `App.NextKeepsValid` | src/App.js:67-129 | Every frame keeps the invariant: paddles on the board, speeds `BALL_SPEED`, ball in play, scores non-negative. |
| `App.RunKeepsValid` | src/App.js:64-134 | The invariant holds after any number of frames with any keys and coins (by induction over the frames). |
| `App.RunScoresMonotone` | src/App.js:113-122 | Over any run, neither score decreases, and the total grows by at most the number of frames. |
| `App.Game.constructor` | src/App.js:35 | The component starts from `initialState()`, which satisfies the invariant. |
| `App.Game.HandleReset` | src/App.js:39-41 | Reset replaces the state with a fresh world: scores 0/0, ball and paddles centred, whatever was played before. |
| `App.Game.Step` | src/App.js:64-72 | One animation frame replaces the state with `Next` of the old state and keeps the invariant. |
| `PongBoard.Tick` | src/PongBoard.js:62-120 | The statement-by-statement updater computes exactly `Next`: the bottom paddle's step, then `Advance`. |
| `PongBoard.TopPaddleIgnoresKeys` | src/PongBoard.js:69-73 | A frame without a point leaves the top paddle where it was, and a point puts it back at 160. A top paddle at 160 is therefore still at 160 after any frame. |
| `PongBoard.BottomPaddleStep` | src/PongBoard.js:69-73 | The bottom paddle stays in `[0, 320]`. With both keys held, right is applied after left: `clamp(clamp(p-6, 0, 320)+6, 0, 320)`, which equals `max(p, 6)`. |
| `PongBoard.NextKeepsInvariant` | src/PongBoard.js:62-120 | Every frame keeps `Valid` together with a top paddle at 160. |
| `PongBoard.BallRules` | src/PongBoard.js:75-113 | On this board: `vx` changes sign exactly when the stepped x is past a wall, and x is not clamped. A top hit gives positive `vy` at `y = 22` and no point. Speeds stay `BALL_SPEED`. A ball past the top or bottom edge scores for the other side and starts a centred round; otherwise the scores are unchanged. |
| `PongBoard.BottomHit` | src/PongBoard.js:93-102 | A ball moving down that reaches the moved bottom paddle's band over it leaves upward at `y = 566`, and no point is scored. |
| `PongBoard.QuietTick` | src/PongBoard.js:75-119 | With no wall, paddle or score event, the result is exactly `(x+vx, y+vy, vx, vy)`, with the moved paddles and unchanged scores. |
| `PongBoard.RunKeepsInvariant` | src/PongBoard.js:59-125 | Over any number of frames: the top paddle stays at 160, the bottom paddle stays on the board, and both speeds stay `BALL_SPEED` (by induction over the frames). |
| `PongBoard.InitialStateKeepsInvariant` | src/PongBoard.js:16-34 | The component's first state satisfies the board invariant. |

## Left out

- Rendering (JSX, inline styles, CSS): it only displays the world.
- The `keydown`/`keyup` listeners, the `useRef` key object, and the `player` prop that
  picks the keys for `PongBoard`: these are event input. The key snapshot is a parameter
  of `Tick`.
- The `requestAnimationFrame`/`cancelAnimationFrame` scheduling: it is host timing. One
  frame is `Tick`, and a sequence of frames is `Run`.
- `Math.random()`: the two draws become the boolean parameters `coinX` and `coinY`.
- The `JSON.parse(JSON.stringify(prev))` copy: Dafny datatypes are values already, so
  the updater works on copies as it does in the code.
- JavaScript numbers are doubles. Every value here is a small integer, so the model uses
  unbounded `int`. It does not model precision loss for scores beyond 2^53.
