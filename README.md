# Flappy Bird game screen: the simulation core in Dafny

This project models the per-frame game simulation of a Flappy Bird clone built with
React Native, Skia and Reanimated. The repository has two variants of the game
screen, `App-v1.js` and `App-v2.js`. Each one is a small state machine over the
bird's height (`birdY`), its vertical velocity (`birdYVelocity`), the `gameOver`
flag, the pipe's x (`pipeX`), the pipe gap offset (`pipeOffset`) and the `score`.
v2 also has a `gameStarted` flag. Three kinds of event drive each variant:

- a frame tick: an Euler step under gravity;
- a tap: jump, start (v2 only) or restart;
- pipe motion: v1 reacts to each new `pipeX`; in v2 the pipe slides without any
  reaction, and the completion callback of a whole traversal recycles it.

Files:

- `world.dfy`: module `Optional`, which holds JavaScript's `undefined`/`null`, and
  module `World`, which holds what both variants share. That is the constants
  (`GRAVITY = 1000`, `JUMP_FORCE = -500`, the sprite sizes), the screen geometry,
  the inclusive point-in-rectangle hitbox test with pads 24/24/16, the two obstacle
  rectangles, the ground/ceiling test, the free-fall step and the clamped rotation.
- `flappy_v1.dfy`: module `FlappyV1`, the reaction-based variant.
- `flappy_v2.dfy`: module `FlappyV2`, the callback-based variant.

Each variant module has the same three parts:

- a `Session` datatype and one step function per handler: the specification;
- a class `Game` whose fields are the shared values and the React state. Its
  methods update the fields in place, and each method is proved to produce
  exactly the step function's result (`Snapshot() == Step(old(Snapshot()), …)`);
- event traces (`Run` over a sequence of events) with lemmas about many steps.

The model has one more piece of state, `pipeMoving`. It is true while a pipe
animation is in flight. `moveTheMap` sets it. In v1 the game-over reaction's
`cancelAnimation` clears it. In v2 a completed traversal clears it, and it is set
again only when the game is not over. A trace is *driven* when new pipe positions
(both variants) and completions (v2) arrive only while an animation is running.

Numbers are `real`: JavaScript doubles without rounding. `Math.random()` is a
parameter `r` in [0, 1). The frame clock's `timeSincePreviousFrame` is a parameter
`dt : Option<real>`, where `None` stands for `undefined`. The window dimensions are
constructor parameters.

Behaviour of the code worth noting:

- In v2 a traversal that completes after a game over still adds one to the score.
  `AtMostOneScoreAfterGameOver` shows that this happens at most once.
- In v1 the reaction's guard `previousValue &&` also rejects a previous position
  of exactly 0. The recycle test is therefore skipped for that one sample
  (`RecycleIsStrictCrossing`).
- In v2 a collision before the first tap is possible in principle. The tap that
  follows restarts the game and leaves it not started (`FlappyV2.TapStep`).
- In v2 a game over does not stop the pipe: the traversal in flight keeps sliding
  (`PipeSlidesAfterGameOver`), while v1 cancels it (`GameOverFreezesSession`).

## Model

| member | source | states |
|---|---|---|
| `World.HitboxIsInflatedRect` | App-v1.js:128-136 | the hitbox test holds exactly when the point lies in the closed rectangle grown by 24 to the left, 24 above and 16 below, with the right edge unchanged |
| `World.HitboxIsInclusive` | App-v1.js:128-136 | the hitbox includes its corners (x = rect.x − 24, y = rect.y − 24; x = rect.x + w, y = rect.y + h + 16); any point beyond any side is outside |
| `World.SomeColliding` | App-v1.js:156-158 | `obstacles.some(...)` is true exactly when some rectangle in the list contains the point under the hitbox test |
| `World.Obstacles` | App-v1.js:61-84 | exactly two rectangles, both with x = `pipeX` and size 104 × 640; the vertical gap between them is `height − 640` whatever the offset |
| `World.OffsetMovesBothPipes` | App-v1.js:61-62 | changing the gap offset by d moves both rectangles down by d and changes nothing else |
| `World.NextPipeOffset` | App-v1.js:111 | the new offset `r·400 − 200` lies in [−200, 200) for every r in [0, 1) |
| `World.BirdCenter` | App-v1.js:142-145 | the collision point lies inside the 64 by 48 bird sprite at `(birdX, birdY)`, equally far from its left and right edges and from its top and bottom edges: the sprite's centre |
| `World.GroundScenario` | App-v1.js:148-153 | a bird at `height − 1` has hit the ground (below `height − 150 + 24`) |
| `World.Fall` | App-v1.js:181-182 | a frame adds exactly `GRAVITY·dt/1000` to the velocity, which never decreases for dt ≥ 0 |
| `World.FallLagsExactFall` | App-v1.js:181-182 | the position moves with the old velocity, so it lags exact free fall by g·t²/2 |
| `World.VelocityIsFrameRateIndependent` | App-v1.js:182 | two frames of d1 and d2 give the same velocity as one frame of d1 + d2 |
| `World.PositionDependsOnFrameRate` | App-v1.js:181-182 | the position does depend on the frame split: two frames of d1 and d2 move the bird further than one frame of d1 + d2, by exactly g·(d1/1000)·(d2/1000) |
| `World.InterpolateClamped` | App-v1.js:210-215 | clamped interpolation stays within the output range and gives its ends at and beyond the input range |
| `World.Rotation` | App-v1.js:207-218 | the rotation always lies in [−0.5, 0.5] |
| `World.RotationIsClampedVelocity` | App-v1.js:210-215 | the rotation is `clamp(v/1000, −0.5, 0.5)` |
| `World.RotationIsMonotone` | App-v1.js:210-215 | a larger velocity never gives a smaller rotation |
| `FlappyV1.TickStep` | App-v1.js:177-183 | a tick with dt undefined or 0, or after a game over, changes nothing; otherwise the bird takes one `Fall` step and nothing else changes |
| `FlappyV1.RestartStep` | App-v1.js:185-193 | restarting gives the mounted state (bird at height/3, velocity 0, not over, pipe at the right edge, score 0, pipe moving); the gap offset is kept |
| `FlappyV1.TapStep` | App-v1.js:196-204 | after a game over a tap restarts; otherwise it sets the velocity to −500, whatever it was, and changes nothing else |
| `FlappyV1.GameOverReaction` | App-v1.js:166-174 | the pipe animation is cancelled exactly when `gameOver` has just turned true; nothing else changes |
| `FlappyV1.CollisionStep` | App-v1.js:139-174 | afterwards the game is over iff it was over or the bird hits ground, ceiling or a pipe (never cleared); the animation stops iff the game has just ended |
| `FlappyV1.PipeStep` | App-v1.js:103-126 | the pipe x becomes the new value; the score rises by exactly 1 iff the scoring condition holds; a recycle sets the offset to `r·400 − 200`, which lies in [−200, 200), and restarts the animation; the bird and `gameOver` are untouched |
| `FlappyV1.PassesBirdIsCrossing` | App-v1.js:117-124 | for a positive width the scoring condition is exactly prev > birdX ≥ cur, however large the jump |
| `FlappyV1.RecycleIsStrictCrossing` | App-v1.js:110-114 | recycling happens iff prev > −100 > cur (both strict), for a nonzero prev; a null or zero prev never recycles |
| `FlappyV1.StepKeepsCancelled` | App-v1.js:165-174 | each driven step keeps "game over implies no pipe animation" |
| `FlappyV1.RunKeepsCancelled` | App-v1.js:165-174 | every driven trace keeps "game over implies no pipe animation" |
| `FlappyV1.GameOverFreezesSession` | App-v1.js:166-183 | after a game over with the animation cancelled, any driven trace without a tap leaves the whole state unchanged (no motion, no score) |
| `FlappyV1.ScoreNeverDecreasesWithoutTap` | App-v1.js:117-124 | without a tap the score never decreases |
| `FlappyV1.Samples` | App-v1.js:103-105 | consecutive samples x0, x1, … reach the reaction as the pairs (x_i, x_{i+1}) |
| `FlappyV1.OneScorePerPass` | App-v1.js:117-124 | a leftward pass of the pipe, sampled in any way, scores exactly once if it starts right of the bird and ends at or left of it, and not at all otherwise |
| `FlappyV1.Game.constructor` | App-v1.js:52-63 | the fields start in the mounted state, with the pipe animation running |
| `FlappyV1.Game.MoveTheMap` | App-v1.js:91-100 | starting the pipe animation changes nothing else |
| `FlappyV1.Game.Tick` | App-v1.js:177-183 | the frame callback updates the fields as `TickStep` says |
| `FlappyV1.Game.RestartGame` | App-v1.js:185-193 | restart updates the fields as `RestartStep` says |
| `FlappyV1.Game.Tap` | App-v1.js:196-204 | the tap updates the fields as `TapStep` says |
| `FlappyV1.Game.OnGameOverChanged` | App-v1.js:166-174 | the game-over reaction updates the fields as `GameOverReaction` says |
| `FlappyV1.Game.CheckCollision` | App-v1.js:139-163 | the two sequential collision tests, followed by the game-over reaction, act as `CollisionStep` says |
| `FlappyV1.Game.ObservePipeX` | App-v1.js:103-126 | the pipe-position reaction updates the fields as `PipeStep` says |
| `FlappyV1.Game.BirdRotation` | App-v1.js:207-218 | the bird's rotation is `clamp(v/1000, −0.5, 0.5)` and lies in [−0.5, 0.5] |
| `FlappyV2.TickStep` | App-v2.js:130-136 | a tick with dt undefined or 0, after a game over, or before the start changes nothing; otherwise the bird takes one `Fall` step and nothing else changes |
| `FlappyV2.StartStep` | App-v2.js:147-151 | starting marks the game started, sets the velocity to −500 and starts the pipe animation; nothing else changes |
| `FlappyV2.RestartStep` | App-v2.js:138-145 | restarting gives the mounted state with the pipe moving, but keeps `gameStarted` and the gap offset |
| `FlappyV2.TapStep` | App-v2.js:153-161 | three cases: game over → restart; not started → start; otherwise velocity −500 only. After any tap the game is not over, and it is started unless it had ended before the start |
| `FlappyV2.CollisionStep` | App-v2.js:112-128 | afterwards the game is over iff it was over or the bird hits ground, ceiling or a pipe (never cleared); nothing else changes |
| `FlappyV2.TraversalStep` | App-v2.js:93-98 | a completion puts the pipe at the right edge with the offset `r·400 − 200`, in [−200, 200), adds exactly 1 to the score even after a game over, and starts the next traversal iff the game is not over |
| `FlappyV2.SlideStep` | App-v2.js:86-92 | a frame of the traversal moves the pipe to the animated x and changes nothing else |
| `FlappyV2.Completions` | App-v2.js:93-98 | counts the completed traversals of a trace: at most one per event, and zero exactly when no traversal completes |
| `FlappyV2.StartedStaysStarted` | App-v2.js:138-161 | once started, no sequence of events makes the game not started again |
| `FlappyV2.IdleUntilTap` | App-v2.js:130-136 | before the first tap the bird does not move and the game stays unstarted |
| `FlappyV2.ScoreCountsTraversals` | App-v2.js:93-96 | without a tap the score grows by exactly the number of completed traversals |
| `FlappyV2.AtMostOneScoreAfterGameOver` | App-v2.js:93-97 | after a game over (driven, no tap) the bird is frozen and the game stays over; at most one more point comes, from the traversal still in flight, and no new traversal starts |
| `FlappyV2.PipeHitReachable` | App-v2.js:65-128 | a driven trace from the mounted screen (tap, pipe slides to x = 120, collision check) ends the game on the pipe, with the bird inside the screen |
| `FlappyV2.PipeSlidesAfterGameOver` | App-v2.js:86-99 | after a game over an in-flight traversal still moves the pipe, and the collision check that follows changes nothing |
| `FlappyV2.Game.constructor` | App-v2.js:51-59 | the fields start in the mounted state: not started, pipe not moving |
| `FlappyV2.Game.MoveTheMap` | App-v2.js:86-100 | starting a traversal changes nothing else |
| `FlappyV2.Game.AnimatePipe` | App-v2.js:86-92 | one animation frame updates the fields as `SlideStep` says |
| `FlappyV2.Game.TraversalComplete` | App-v2.js:93-98 | the completion handler updates the fields as `TraversalStep` says |
| `FlappyV2.Game.CheckCollision` | App-v2.js:112-128 | the single combined collision test acts as `CollisionStep` says |
| `FlappyV2.Game.Tick` | App-v2.js:130-136 | the frame callback updates the fields as `TickStep` says |
| `FlappyV2.Game.RestartGame` | App-v2.js:138-145 | restart updates the fields as `RestartStep` says |
| `FlappyV2.Game.StartGame` | App-v2.js:147-151 | start updates the fields as `StartStep` says |
| `FlappyV2.Game.Tap` | App-v2.js:153-161 | the tap updates the fields as `TapStep` says |
| `FlappyV2.Game.BirdRotation` | App-v2.js:163-174 | the bird's rotation is `clamp(v/1000, −0.5, 0.5)` and lies in [−0.5, 0.5] |

## Left out

- Rendering (`App-v1.js:228-286`, `App-v2.js:183-264`): the Skia canvas, images,
  fonts and the bird's rotation origin. These are presentation only.
- Navigation screens: `App.js`, `StartScreen.js` and `GameOverScreen.js` only wire
  navigation and draw images. The `GameScreen` that `App.js` imports is not part of
  this model.
- Speed multiplier (`pipesSpeed`, `App-v1.js:65-67`, `App-v2.js:61-63`): it only
  sets an animation duration, and the model has no durations.
- Animation timing: `withTiming`, `withSequence` and `Easing.linear` are library
  semantics. The model takes their effect as delivered values instead: a new
  `pipeX` (`ObservePipeX` in v1, `AnimatePipe` in v2) and, in v2, a completion
  event (`TraversalComplete`). Which positions arrive, and when, is not modelled.
  Also left out: v1's final `withTiming(width)` at the end of a traversal that was
  not recycled, and the `finished = false` callback that Reanimated delivers when
  v2 replaces an animation still in flight. That happens on restart, and on start,
  where the `useEffect` on `gameStarted` (`App-v2.js:80-84`) calls `moveTheMap`
  while `startGame`'s own animation is running. The callback ignores `finished`,
  so the replaced traversal would also recycle the pipe and score.
- Threading and hooks: `runOnJS`, the UI/JS thread hand-off, the scheduling of
  `useAnimatedReaction`, its first run on mount, and React's batching of
  `useState`/`useEffect`. Every handler is one atomic step.
- `FlappyV1.Game.ObservePipeX`: v1 scores with `setScore(score + 1)`, where `score`
  is the value captured at the last render. The model uses the current score.
- `FlappyV2.Game.StartGame`: v2's `useEffect` on `gameStarted` calls `moveTheMap`
  a second time. Its only effect in the model, a running animation, is already set.
- Floating point: IEEE-754 rounding and NaN are not modelled (`!dt` is also true
  for NaN). The model uses `real`.
- Randomness: `Math.random()` is the parameter `r`, assumed to lie in [0, 1).
