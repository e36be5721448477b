# Pong: the per-frame game logic, modelled and proved in Dafny

This project models the game-state core of a small Android Pong clone:

- a ball that moves, bounces and speeds up;
- a paddle ("bat") that the player steers left or right and that stays on screen;
- two obstacles that slide sideways and reverse at the screen edges;
- the round state (score, lives, paused) that the per-frame collision pass drives;
- the frame-rate step of the game loop and the touch handler.

Each Java class becomes a Dafny `class` with the same fields, and each method changes them in place as the Java does. Every class also has a value datatype (`BallState`, `BatState`, `ObstacleState`, `GameState`) and one pure function per operation. Each method's `ensures` says that its new state is that function of its old state, for example `State() == Moved(old(State()), fps)`. The properties the game promises are then proved about those functions.

Modules:

- `Geometry` (`geometry.dfy`): Android's `RectF` as `Rect`, the strict `RectF.intersects` test, and Java's truncating integer `/` (`JavaDiv`).
- `Balls`, `Bats`, `Obstacles` (`ball.dfy`, `bat.dfy`, `obstacle.dfy`): the three entities.
- `Game` (`game.dfy`): the `PongGame` class with `startNewGame`, `update`, `detectCollisions`, one pass of the loop and `onTouchEvent`. It also holds the pure functions those methods are proved against.
- `GameProperties` (`game_properties.dfy`): what one collision pass does in each situation.
- `Session` (`session.dfy`): loop passes and touches applied in sequence, with properties proved by induction over the sequence.

Modelling choices:

- Coordinates and velocities are exact `real`s. `1.1f` is `1.1`, and `sy / 2.5` is an exact quotient.
- Screen sizes are `int`. The integer divisions in the constructors and in `reset` use `JavaDiv`, which truncates toward zero as Java does.
- The static obstacle counter is a `SpawnCounter` object. The `Obstacle` constructor reads it and increments it.
- Each `mSP.play(...)` call becomes a `Sound` tag (`Beep`, `Miss`, `Boop`, `Bop`). `DetectCollisions` returns the tags in the order the sounds play.
- The bat's integer movement flag (`STOPPED`, `LEFT`, `RIGHT`) is the datatype `Movement`.
- A touch arrives already decoded as a `TouchAction` plus its x coordinate.
- Where the code does something one might not expect, the model follows the code:
  - Equal centres: when the ball's centre equals the target's centre, `batBounce` takes the `else` branch. The ball then heads left, not right (`Bounced`, `Ball.java:85-91`).
  - `Obstacle.update` does not clamp the obstacle to the screen. Only the edge tests in `detectCollisions` reverse it (`SlideDoesNotClamp`).
  - Lives: after a whole collision pass, lives are always between 1 and 3. The value 0 exists only inside the pass, just before the new game resets it to 3, and in the constructor before its first `startNewGame` (`Built`).

## Model

| member | source | states |
|---|---|---|
| Geometry.JavaDiv | app/src/main/java/com/gamecodeschool/pong/Bat.java:33-37 | Java's `int` division by a positive divisor: the quotient is the one truncated toward zero, pinned by bounds on `q * b` for each sign of the dividend |
| Geometry.Abs | app/src/main/java/com/gamecodeschool/pong/Ball.java:86-90 | `Math.abs`: the result is non-negative and equals the value or its negation |
| Geometry.Intersects | app/src/main/java/com/gamecodeschool/pong/PongGame.java:264 | Android's `RectF.intersects`: strict overlap on both axes, so shared edges do not count; its meaning is stated by `IntersectsIffSharedPoint` |
| Geometry.IntersectsIffSharedPoint | app/src/main/java/com/gamecodeschool/pong/PongGame.java:264 | the `RectF.intersects` test holds whenever a point lies strictly inside both rectangles, and for rectangles with left < right and top < bottom it holds only then |
| Geometry.IntersectsSymmetric | app/src/main/java/com/gamecodeschool/pong/PongGame.java:264 | the `RectF.intersects` test does not depend on the order of its arguments |
| Geometry.TouchingIsNotIntersecting | app/src/main/java/com/gamecodeschool/pong/PongGame.java:264 | rectangles that only share an edge do not intersect |
| Balls.Initial | app/src/main/java/com/gamecodeschool/pong/Ball.java:22-27 | width equals height and is a whole number, Java's truncated screenX / 100; on a non-negative screen width w it is the largest whole number with size·100 ≤ w; empty rectangle; no velocity |
| Balls.Ball.constructor | app/src/main/java/com/gamecodeschool/pong/Ball.java:22-27 | the new ball's state is `Initial(screenX)` |
| Balls.ReverseXInvolution | app/src/main/java/com/gamecodeschool/pong/Ball.java:43-45 | reversing x negates only the x velocity, and reversing twice restores the ball |
| Balls.ReverseYInvolution | app/src/main/java/com/gamecodeschool/pong/Ball.java:38-40 | reversing y negates only the y velocity, and reversing twice restores the ball |
| Balls.ReversedX | app/src/main/java/com/gamecodeschool/pong/Ball.java:43-45 | the x velocity is negated and nothing else changes |
| Balls.ReversedY | app/src/main/java/com/gamecodeschool/pong/Ball.java:38-40 | the y velocity is negated and nothing else changes |
| Balls.Ball.ReverseXVelocity | app/src/main/java/com/gamecodeschool/pong/Ball.java:43-45 | the new state is `ReversedX` of the old |
| Balls.Ball.ReverseYVelocity | app/src/main/java/com/gamecodeschool/pong/Ball.java:38-40 | the new state is `ReversedY` of the old |
| Balls.Moved | app/src/main/java/com/gamecodeschool/pong/Ball.java:48-54 | left moves by exactly vx/fps and top by exactly vy/fps; right and bottom follow at width and height; velocities and size unchanged |
| Balls.Ball.Update | app/src/main/java/com/gamecodeschool/pong/Ball.java:48-54 | the new state is `Moved(old, fps)`, for fps > 0 |
| Balls.MoveIsReversible | app/src/main/java/com/gamecodeschool/pong/Ball.java:38-54 | a frame of movement, both components reversed, and a second frame at the same rate bring the ball back to its rectangle |
| Balls.Served | app/src/main/java/com/gamecodeschool/pong/Ball.java:57-65 | the serve: top 0, left and vx both x/2, vy is -(y/3), the rectangle spans the ball's size; on a non-negative screen the ball heads right and up |
| Balls.Ball.Reset | app/src/main/java/com/gamecodeschool/pong/Ball.java:57-65 | the new state is `Served(old, x, y)` |
| Balls.ResetIdempotent | app/src/main/java/com/gamecodeschool/pong/Ball.java:57-65 | serving twice gives the same ball as serving once |
| Balls.Faster | app/src/main/java/com/gamecodeschool/pong/Ball.java:70-75 | each velocity component keeps its sign and its magnitude grows by exactly 1.1 times; the rectangle is unchanged |
| Balls.Ball.IncreaseVelocity | app/src/main/java/com/gamecodeschool/pong/Ball.java:70-75 | the new state is `Faster(old)` |
| Balls.Bounced | app/src/main/java/com/gamecodeschool/pong/Ball.java:79-94 | vy is negated; \|vx\| is kept; vx ≥ 0 when the ball's centre is strictly right of the target's, vx ≤ 0 otherwise (ties included), and vx > 0 only in the first case; the rectangle is unchanged |
| Balls.Ball.BatBounce | app/src/main/java/com/gamecodeschool/pong/Ball.java:79-94 | the new state is `Bounced(old, target)` |
| Balls.BounceTwice | app/src/main/java/com/gamecodeschool/pong/Ball.java:79-94 | a second bounce off the same target keeps the direction the first one chose and restores vy |
| Bats.Initial | app/src/main/java/com/gamecodeschool/pong/Bat.java:30-45 | length sx/8, x sx/2, speed sx, bottom at sy, top at sy - sy/40, not moving, rectangle tracks x; on a non-negative screen the bat starts on screen |
| Bats.Bat.constructor | app/src/main/java/com/gamecodeschool/pong/Bat.java:30-45 | the new bat's state is `Initial(sx, sy)` |
| Bats.Bat.GetRect | app/src/main/java/com/gamecodeschool/pong/Bat.java:51-53 | returns the rectangle of the bat's state |
| Bats.WithMovementOnlyMoving | app/src/main/java/com/gamecodeschool/pong/Bat.java:65-67 | setting the movement state stores it and changes nothing else |
| Bats.Bat.SetMovementState | app/src/main/java/com/gamecodeschool/pong/Bat.java:65-67 | the new state is `WithMovement(old, state)` |
| Bats.WithMovement | app/src/main/java/com/gamecodeschool/pong/Bat.java:65-67 | the movement state is the one given and nothing else changes |
| Bats.Steered | app/src/main/java/com/gamecodeschool/pong/Bat.java:77-83 | STOPPED keeps x; LEFT and RIGHT move it by exactly speed/fps in size |
| Bats.SteeringDirection | app/src/main/java/com/gamecodeschool/pong/Bat.java:77-83 | before clamping, LEFT does not increase x, RIGHT does not decrease it, STOPPED keeps it; RIGHT moves by exactly speed/fps and LEFT by the same amount the other way |
| Bats.Clamped | app/src/main/java/com/gamecodeschool/pong/Bat.java:85-91 | when the length fits the screen, the result lies in [0, screenX - length]; an x already in range is kept; a negative x becomes 0; an x whose end is past the right edge becomes screenX - length |
| Bats.ClampIdempotent | app/src/main/java/com/gamecodeschool/pong/Bat.java:85-91 | clamping twice is clamping once |
| Bats.Moved | app/src/main/java/com/gamecodeschool/pong/Bat.java:76-95 | x moves by -speed/fps for LEFT, +speed/fps for RIGHT and not at all for STOPPED, then goes to 0 if below it, to screenX - length if the end is past the right edge, and stays otherwise; the rectangle's left and right follow x; top, bottom, length, speed and movement state are unchanged; the bat is on screen whenever its length fits |
| Bats.Bat.Update | app/src/main/java/com/gamecodeschool/pong/Bat.java:76-95 | the new state is `Moved(old, fps)`, for fps > 0 |
| Bats.StoppedOnScreenIsFixed | app/src/main/java/com/gamecodeschool/pong/Bat.java:76-95 | a stopped bat already on screen does not move at all |
| Bats.ConstructedStaysOnScreen | app/src/main/java/com/gamecodeschool/pong/Bat.java:85-91 | with the constructor's length sx/8, one frame leaves the bat on screen from any x and in any movement state |
| Obstacles.Spawn | app/src/main/java/com/gamecodeschool/pong/Obstacle.java:15-33 | the first obstacle (count < 1) is at (0, 50) and every later one at (sx - 225, sy/2.5); length sx/8, height sy/20, speed sx/3; the rectangle spans the length |
| Obstacles.Obstacle.constructor | app/src/main/java/com/gamecodeschool/pong/Obstacle.java:15-33 | the new obstacle's state is `Spawn(sx, sy, count)`, and the shared counter goes up by one |
| Obstacles.SpawnCounter.constructor | app/src/main/java/com/gamecodeschool/pong/Obstacle.java:10 | the static counter starts at 0 |
| Obstacles.FirstTwoSpawnsApart | app/src/main/java/com/gamecodeschool/pong/Obstacle.java:21-31 | on a screen at least 143 pixels high, the first two obstacles do not overlap |
| Obstacles.LaterSpawnsCoincide | app/src/main/java/com/gamecodeschool/pong/Obstacle.java:21-24 | every obstacle after the first is built identically |
| Obstacles.Obstacle.GetObstacle | app/src/main/java/com/gamecodeschool/pong/Obstacle.java:35-37 | returns the rectangle of the obstacle's state |
| Obstacles.ReverseInvolution | app/src/main/java/com/gamecodeschool/pong/Obstacle.java:39-41 | reversing negates only the speed, and reversing twice is the identity |
| Obstacles.Reversed | app/src/main/java/com/gamecodeschool/pong/Obstacle.java:39-41 | the speed is negated and nothing else changes |
| Obstacles.Obstacle.ReverseVelocity | app/src/main/java/com/gamecodeschool/pong/Obstacle.java:39-41 | the new state is `Reversed(old)` |
| Obstacles.Relocated | app/src/main/java/com/gamecodeschool/pong/Obstacle.java:43-47 | sets x and y; rectangle, speed and length are unchanged |
| Obstacles.Obstacle.Reset | app/src/main/java/com/gamecodeschool/pong/Obstacle.java:43-47 | the new state is `Relocated(old, sx, sy)` |
| Obstacles.Slid | app/src/main/java/com/gamecodeschool/pong/Obstacle.java:50-55 | x advances by exactly speed/fps; left and right follow x; top and bottom, speed, length and y are unchanged |
| Obstacles.Obstacle.Update | app/src/main/java/com/gamecodeschool/pong/Obstacle.java:50-55 | the new state is `Slid(old, fps)`, for fps > 0 |
| Obstacles.SlideKeepsVerticalEdges | app/src/main/java/com/gamecodeschool/pong/Obstacle.java:43-55 | a reset followed by a frame never moves the top or bottom edge |
| Obstacles.SlideDoesNotClamp | app/src/main/java/com/gamecodeschool/pong/Obstacle.java:50-55 | an obstacle moving right beyond a given x stays beyond it after a frame |
| Game.NewGame | app/src/main/java/com/gamecodeschool/pong/PongGame.java:129-138 | score 0 and lives 3; the ball is served; the first obstacle's coordinates become (0, 0) and the second's (screenX - 225, screenY/2.5), with their rectangles, speeds and lengths unchanged; the bat, paused flag and frame rate are unchanged |
| Game.PongGame.StartNewGame | app/src/main/java/com/gamecodeschool/pong/PongGame.java:129-138 | the new state is `NewGame(old)`, and the round invariant holds |
| GameProperties.NewGameIdempotent | app/src/main/java/com/gamecodeschool/pong/PongGame.java:129-138 | starting a new game twice is the same as starting it once |
| Game.PongGame.constructor | app/src/main/java/com/gamecodeschool/pong/PongGame.java:70-122 | the entities are built from the screen size, the obstacles take the next two counter values, the counter rises by two, and the game starts paused in `NewGame` of that state with the round invariant holding |
| Game.Built | app/src/main/java/com/gamecodeschool/pong/PongGame.java:74-85 | the state before the first new game: no score or lives, paused, fps 0, the ball exactly as `Balls.Initial` builds it (square), the bat exactly as `Bats.Initial` builds it (stopped, on screen), and the obstacles exactly as `Obstacles.Spawn` builds the `count`-th and the next one, rectangles and speeds included |
| Game.Updated | app/src/main/java/com/gamecodeschool/pong/PongGame.java:244-249 | all four entities take their own frame with the one shared fps: the ball `Balls.Moved` (left and top move by velocity / fps), each obstacle `Obstacles.Slid` (x and its rectangle's sides move by speed / fps), the bat `Bats.Moved` and so ends on screen when its length fits; the ball stays placed with its velocity; score, lives, pause and fps are unchanged |
| Game.PongGame.Update | app/src/main/java/com/gamecodeschool/pong/PongGame.java:244-249 | the new state is `Updated(old)`, for fps > 0 |
| Game.PaddleCheck | app/src/main/java/com/gamecodeschool/pong/PongGame.java:264-269 | on a paddle hit the ball is bounced off the bat and then sped up, the score goes up by one and a beep plays; otherwise nothing changes; nothing other than the ball and the score changes |
| Game.ObstacleCheck | app/src/main/java/com/gamecodeschool/pong/PongGame.java:271-277 | an obstacle hit bounces the ball off that obstacle; without a hit nothing changes; only the ball's velocity can change |
| Game.MissCheck | app/src/main/java/com/gamecodeschool/pong/PongGame.java:279-289 | with no miss nothing happens; on a miss the miss sound plays, vy is negated and a life is lost, and on the last life the ball is served again, the score goes to 0, lives to 3 and the game pauses; on a non-final miss nothing but the ball's vy and the lives changes; on the last life the result is exactly `NewGame` of the paused state with vy negated, so the obstacles are relocated too; bat, fps and the obstacles' rectangles and speeds are unchanged |
| Game.TopCheck | app/src/main/java/com/gamecodeschool/pong/PongGame.java:291-294 | a ball above the top edge has vy negated and a boop plays; otherwise nothing changes; the ball is `ReversedY` or unchanged, so its size and rectangle are kept and only vy can change |
| Game.LeftCheck | app/src/main/java/com/gamecodeschool/pong/PongGame.java:296-299 | a ball past the left edge has vx negated and a bop plays; otherwise nothing changes; the ball is `ReversedX` or unchanged, so its size and rectangle are kept and only vx can change |
| Game.RightCheck | app/src/main/java/com/gamecodeschool/pong/PongGame.java:301-304 | a ball past the right edge has vx negated and a bop plays; otherwise nothing changes; the ball is `ReversedX` or unchanged, so its size and rectangle are kept and only vx can change |
| Game.EdgeCheck | app/src/main/java/com/gamecodeschool/pong/PongGame.java:306-320 | only the obstacle's speed changes |
| Game.BatAndObstacleChecks | app/src/main/java/com/gamecodeschool/pong/PongGame.java:264-277 | the paddle test then both obstacle tests: only the ball and the score change, the score by one exactly on a paddle hit, with a single beep then |
| Game.WallChecks | app/src/main/java/com/gamecodeschool/pong/PongGame.java:291-304 | the top, left and right tests in order: only the ball's velocity changes (its rectangle, width and height are kept), and neither a beep nor a miss sound plays |
| Game.EdgeChecks | app/src/main/java/com/gamecodeschool/pong/PongGame.java:306-320 | only the two obstacles change |
| Game.Collided | app/src/main/java/com/gamecodeschool/pong/PongGame.java:262-321 | the whole pass in source order leaves the bat, fps and screen alone |
| Game.CollisionPass | app/src/main/java/com/gamecodeschool/pong/PongGame.java:262-321 | lives stay in [1,3]; the score becomes 0, stays, or goes up by one; lives fall by one exactly on a miss (reset to 3 on the last life); the game pauses only on game over; a beep plays exactly on a paddle hit and the miss sound exactly on a miss; bat, fps and screen are unchanged |
| Game.PongGame.DetectCollisions | app/src/main/java/com/gamecodeschool/pong/PongGame.java:262-321 | the new state and the sounds played are `Collided(old)` |
| Game.PongGame.BounceOffBatAndObstacles | app/src/main/java/com/gamecodeschool/pong/PongGame.java:264-277 | the new state and sounds are the paddle check followed by both obstacle checks |
| Game.PongGame.CheckMiss | app/src/main/java/com/gamecodeschool/pong/PongGame.java:279-289 | the new state and sounds are `MissCheck(old)` |
| Game.PongGame.BounceOffWalls | app/src/main/java/com/gamecodeschool/pong/PongGame.java:291-304 | the new state and sounds are the top, left and right checks in order |
| Game.PongGame.ReverseObstaclesAtEdges | app/src/main/java/com/gamecodeschool/pong/PongGame.java:306-320 | each obstacle's state becomes `EdgeCheck` of the old one |
| GameProperties.PaddleHitScores | app/src/main/java/com/gamecodeschool/pong/PongGame.java:264-269 | without a miss, a paddle hit scores exactly one point, beeps first and only once, and leaves both velocity components exactly 1.1 times as fast |
| GameProperties.ObstacleBounceKeepsSpeed | app/src/main/java/com/gamecodeschool/pong/PongGame.java:271-277 | an obstacle bounce keeps the size of both velocity components |
| GameProperties.BatAndObstacleSpeed | app/src/main/java/com/gamecodeschool/pong/PongGame.java:264-277 | paddle and obstacle checks change the speed only by the paddle's factor of 1.1 |
| GameProperties.WallsKeepSpeed | app/src/main/java/com/gamecodeschool/pong/PongGame.java:291-304 | wall bounces keep the size of both velocity components |
| GameProperties.SpeedAfterCollisions | app/src/main/java/com/gamecodeschool/pong/PongGame.java:262-321 | without a miss, a whole pass scales both speed components by 1.1 on a paddle hit and by 1 otherwise |
| GameProperties.GameOverRestarts | app/src/main/java/com/gamecodeschool/pong/PongGame.java:279-289 | a miss on the last life gives lives 3, score 0, a paused game, the miss sound and the ball at its serve position |
| GameProperties.MissCostsOneLife | app/src/main/java/com/gamecodeschool/pong/PongGame.java:279-289 | a miss with lives to spare costs exactly one life, keeps the score (plus any paddle point) and keeps the pause flag |
| GameProperties.SideBounced | app/src/main/java/com/gamecodeschool/pong/PongGame.java:296-320 | a nonzero velocity ends up reversed exactly when the rectangle is past one side edge only |
| GameProperties.WallBounces | app/src/main/java/com/gamecodeschool/pong/PongGame.java:291-304 | with no paddle, obstacle or miss contact, the top wall flips vy and each side wall past flips vx; boop and bops play in order; the rectangle, score and lives are unchanged |
| GameProperties.WallChecksFlip | app/src/main/java/com/gamecodeschool/pong/PongGame.java:291-304 | for every state, the wall tests flip vy when the ball is above the top, flip vx once per side edge passed, play boop and bops in order, and keep the ball's rectangle, width and height and everything outside the ball |
| GameProperties.EdgeCheckFlips | app/src/main/java/com/gamecodeschool/pong/PongGame.java:306-320 | an obstacle's speed flips once per side edge it is past; its rectangle stays |
| GameProperties.ObstaclesBeforeEdges | app/src/main/java/com/gamecodeschool/pong/PongGame.java:264-304 | nothing before the edge tests changes an obstacle's rectangle or speed, even a new game |
| GameProperties.ObstacleEdgeFlips | app/src/main/java/com/gamecodeschool/pong/PongGame.java:262-321 | over a whole pass, each obstacle's speed flips once per side edge it is past, and its rectangle does not move |
| Game.Touched | app/src/main/java/com/gamecodeschool/pong/PongGame.java:370-393 | a press unpauses and moves the bat right exactly when x > screenX/2, else left; a release stops the bat and keeps the pause flag; other actions change nothing; only the pause flag and the bat's movement can change |
| Game.PongGame.OnTouchEvent | app/src/main/java/com/gamecodeschool/pong/PongGame.java:370-393 | the new state is `Touched(old, action, x)`, and the event is always reported as handled |
| Game.FpsStep | app/src/main/java/com/gamecodeschool/pong/PongGame.java:229-233 | for a positive frame time, the new fps is the largest r with r·elapsed ≤ 1000; otherwise the old fps is kept |
| GameProperties.SlowFrameGivesZeroFps | app/src/main/java/com/gamecodeschool/pong/PongGame.java:229-233 | a frame longer than one second sets fps to 0 |
| GameProperties.FpsStaysPositive | app/src/main/java/com/gamecodeschool/pong/PongGame.java:229-233 | a positive fps stays positive after a frame of at most one second |
| Game.Ticked | app/src/main/java/com/gamecodeschool/pong/PongGame.java:216-235 | one loop pass keeps lives in [1,3], moves the score by at most one point up or back to 0, sets fps by `FpsStep` and keeps the screen; a paused pass changes only fps |
| Game.PongGame.RunFrame | app/src/main/java/com/gamecodeschool/pong/PongGame.java:217-233 | the new state is `Ticked(old, elapsed)`, and the round invariant is kept |
| Session.ApplyKeepsRound | app/src/main/java/com/gamecodeschool/pong/PongGame.java:216-235 | one pass or touch keeps the round invariant and raises the score by at most one |
| Session.Apply | app/src/main/java/com/gamecodeschool/pong/PongGame.java:216-235 | a pass sets fps by `FpsStep`; a touch keeps fps, score and lives; neither changes the screen |
| Session.Play | app/src/main/java/com/gamecodeschool/pong/PongGame.java:216-235 | no events leave the game as it is, and no sequence of events changes the screen |
| Session.PlayKeepsRound | app/src/main/java/com/gamecodeschool/pong/PongGame.java:216-235 | over any sequence of passes and touches, lives stay in [1,3] and the score stays non-negative |
| Session.ScoreAtMostOnePerEvent | app/src/main/java/com/gamecodeschool/pong/PongGame.java:262-269 | after n events the score is between 0 and its old value plus n |
| Session.ApplyKeepsFpsPositive | app/src/main/java/com/gamecodeschool/pong/PongGame.java:229-233 | a pass of at most one second, or a touch, keeps a positive fps positive |
| Session.ShortFramesArePlayable | app/src/main/java/com/gamecodeschool/pong/PongGame.java:229-249 | starting with a positive fps, a session with no pass longer than one second never updates with fps 0 |
| Session.SlowPassThenPressStalls | app/src/main/java/com/gamecodeschool/pong/PongGame.java:216-235 | a paused game that takes a pass of two seconds and is then pressed cannot take another pass without dividing by fps 0 |
| Session.PressBeforeFirstFrameStalls | app/src/main/java/com/gamecodeschool/pong/PongGame.java:229-233 | a freshly constructed game has fps 0, and a press followed by any pass leaves an unpaused game with fps 0, so that pass cannot run |

## Left out

- Threads and the loop itself: `run`'s `while (mPlaying)` loop, `pause`/`resume` and `Thread.join`. One pass of the loop is `RunFrame`; a sequence of passes is `Session.Play`. The frame time, which the source reads from the wall clock, is a parameter. A touch is applied only between two passes; a touch that `onTouchEvent` delivers on the UI thread in the middle of a pass (for example between `Bat.update`'s two reads of the movement flag) is not modelled.
- Drawing (`draw`, `printDebuggingText`), sound-pool setup and asset loading. The font sizes the constructor computes are used only for drawing.
- Sound playback: each `play` call is a `Sound` tag, not audio.
- IEEE `float` rounding: coordinates and velocities are exact reals.
- Java float division by zero: the source's `update(fps)` would divide by an fps of 0 (which gives an infinity). Every modelled update therefore requires fps > 0. `SlowFrameGivesZeroFps` and `SlowPassThenPressStalls` show when the source's fps does reach 0. The fps is also 0 from the start, and a pass of 0 ms keeps it there, so a press before the first pass of 1 to 1000 ms also leads to an update with fps 0 (`PressBeforeFirstFrameStalls`).
- `int` overflow of the score and lives and of `sx - 225`: integers are unbounded.
- `MotionEvent` decoding (`getAction() & ACTION_MASK`, `getX()`): a touch arrives as a `TouchAction` and an x value.
- The activity lifecycle and display-size lookup in `PongActivity.java`: PongActivity.java is not part of this model.
