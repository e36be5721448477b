/** The game: one ball, one paddle, two obstacles, and the score/lives state
    machine that the per-frame collision pass drives. */
module Game {
  import opened Geometry
  import Balls
  import Bats
  import Obstacles

  const MillisInSecond: int := 1000

  /** The sound each collision plays, as an event tag: the paddle's beep, the
      miss, the top wall's boop and the side walls' bop. */
  datatype Sound = Beep | Miss | Boop | Bop

  /** A touch, already decoded from the platform's motion event. */
  datatype TouchAction = ActionDown | ActionUp | ActionOther

  /** Abstract value of the whole game. */
  datatype GameState = GameState(
    ball: Balls.BallState,
    bat: Bats.BatState,
    obstacle: Obstacles.ObstacleState,
    addObstacle: Obstacles.ObstacleState,
    score: int,
    lives: int,
    paused: bool,
    fps: int,
    screenX: int,
    screenY: int)

  /** What the collision pass leaves behind: the new game and the sounds it played, in order. */
  datatype Collision = Collision(game: GameState, sounds: seq<Sound>)

  /** The round invariant: between one and three lives and a non-negative score. */
  predicate InRound(g: GameState)
  {
    1 <= g.lives <= 3 && g.score >= 0
  }

  /** A new game: score 0, three lives, the ball served, the first obstacle's
      coordinates moved to (0, 0) and the second's to (screenX - 225, screenY / 2.5).
      Neither obstacle's rectangle moves until its next update. */
  function NewGame(g: GameState): (r: GameState)
    ensures r.score == 0 && r.lives == 3 && InRound(r)
    ensures r.ball == Balls.Served(g.ball, g.screenX, g.screenY)
    ensures r.obstacle.rect == g.obstacle.rect && r.obstacle.speed == g.obstacle.speed
    ensures r.addObstacle.rect == g.addObstacle.rect && r.addObstacle.speed == g.addObstacle.speed
    ensures r.obstacle.x == 0.0 && r.addObstacle.x == (g.screenX - 225) as real
    ensures r.obstacle.y == 0.0 && r.addObstacle.y == g.screenY as real / 2.5
    ensures r.obstacle.length == g.obstacle.length && r.addObstacle.length == g.addObstacle.length
    ensures r.bat == g.bat && r.paused == g.paused && r.fps == g.fps
    ensures r.screenX == g.screenX && r.screenY == g.screenY
  {
    g.(score := 0, lives := 3,
       ball := Balls.Served(g.ball, g.screenX, g.screenY),
       obstacle := Obstacles.Relocated(g.obstacle, 0.0, 0.0),
       addObstacle := Obstacles.Relocated(g.addObstacle, (g.screenX - 225) as real, g.screenY as real / 2.5))
  }

  /** One frame of movement: every entity steps with the same frame rate. */
  function Updated(g: GameState): (r: GameState)
    requires g.fps > 0
    ensures r.ball.rect.left - g.ball.rect.left == g.ball.xVelocity / g.fps as real
    ensures r.ball.rect.top - g.ball.rect.top == g.ball.yVelocity / g.fps as real
    ensures r.obstacle.x - g.obstacle.x == g.obstacle.speed / g.fps as real
    ensures r.addObstacle.x - g.addObstacle.x == g.addObstacle.speed / g.fps as real
    ensures r.ball == Balls.Moved(g.ball, g.fps) && r.bat == Bats.Moved(g.bat, g.fps)
    ensures r.obstacle == Obstacles.Slid(g.obstacle, g.fps) && r.addObstacle == Obstacles.Slid(g.addObstacle, g.fps)
    ensures 0.0 <= g.bat.length <= g.bat.screenX as real ==> Bats.OnScreen(r.bat)
    ensures Balls.Placed(r.ball) && r.ball.xVelocity == g.ball.xVelocity && r.ball.yVelocity == g.ball.yVelocity
    ensures r.score == g.score && r.lives == g.lives && r.paused == g.paused && r.fps == g.fps
    ensures r.screenX == g.screenX && r.screenY == g.screenY
  {
    g.(ball := Balls.Moved(g.ball, g.fps),
       bat := Bats.Moved(g.bat, g.fps),
       obstacle := Obstacles.Slid(g.obstacle, g.fps),
       addObstacle := Obstacles.Slid(g.addObstacle, g.fps))
  }

  /** Ball against paddle: bounce, speed up, score a point, beep. */
  function PaddleCheck(g: GameState): (c: Collision)
    ensures c.game.(ball := g.ball, score := g.score) == g
    ensures c.game.ball.rect == g.ball.rect
    ensures c.game.score == if Intersects(g.bat.rect, g.ball.rect) then g.score + 1 else g.score
    ensures c.sounds == if Intersects(g.bat.rect, g.ball.rect) then [Beep] else []
    ensures c.game.ball == if Intersects(g.bat.rect, g.ball.rect) then Balls.Faster(Balls.Bounced(g.ball, g.bat.rect)) else g.ball
  {
    if Intersects(g.bat.rect, g.ball.rect) then
      Collision(g.(ball := Balls.Faster(Balls.Bounced(g.ball, g.bat.rect)), score := g.score + 1), [Beep])
    else
      Collision(g, [])
  }

  /** Ball against an obstacle: bounce only. */
  function ObstacleCheck(g: GameState, target: Rect): (r: GameState)
    ensures r.(ball := g.ball) == g && r.ball.rect == g.ball.rect
    ensures r.ball == if Intersects(target, g.ball.rect) then Balls.Bounced(g.ball, target) else g.ball
  {
    if Intersects(target, g.ball.rect) then g.(ball := Balls.Bounced(g.ball, target)) else g
  }

  /** Ball below the bottom edge: reverse vertically, lose a life; on the last
      life pause and start a new game. */
  function MissCheck(g: GameState): (c: Collision)
    ensures !Misses(g) ==> c == Collision(g, [])
    ensures Misses(g) ==> c.sounds == [Miss]
    ensures Misses(g) ==> c.game.lives == (if g.lives == 1 then 3 else g.lives - 1)
    ensures Misses(g) ==> c.game.score == (if g.lives == 1 then 0 else g.score)
    ensures Misses(g) ==> c.game.paused == (g.paused || g.lives == 1)
    ensures Misses(g) && g.lives != 1 ==> c.game.ball == Balls.ReversedY(g.ball)
    ensures Misses(g) && g.lives == 1 ==> c.game.ball == Balls.Served(Balls.ReversedY(g.ball), g.screenX, g.screenY)
    ensures Misses(g) && g.lives != 1 ==> c.game == g.(ball := Balls.ReversedY(g.ball), lives := g.lives - 1)
    ensures Misses(g) && g.lives == 1 ==> c.game == NewGame(g.(ball := Balls.ReversedY(g.ball), lives := 0, paused := true))
    ensures c.game.bat == g.bat && c.game.fps == g.fps
    ensures c.game.screenX == g.screenX && c.game.screenY == g.screenY
    ensures c.game.obstacle.rect == g.obstacle.rect && c.game.obstacle.speed == g.obstacle.speed
    ensures c.game.addObstacle.rect == g.addObstacle.rect && c.game.addObstacle.speed == g.addObstacle.speed
  {
    if g.ball.rect.bottom > g.screenY as real then
      var h := g.(ball := Balls.ReversedY(g.ball), lives := g.lives - 1);
      Collision(if h.lives == 0 then NewGame(h.(paused := true)) else h, [Miss])
    else
      Collision(g, [])
  }

  /** Ball above the top edge: reverse vertically and boop. */
  function TopCheck(g: GameState): (c: Collision)
    ensures c.game.(ball := g.ball) == g && c.game.ball.rect == g.ball.rect
    ensures c.game.ball.width == g.ball.width && c.game.ball.height == g.ball.height
    ensures c.game.ball == if g.ball.rect.top < 0.0 then Balls.ReversedY(g.ball) else g.ball
    ensures c.game.ball.xVelocity == g.ball.xVelocity
    ensures c.game.ball.yVelocity == if g.ball.rect.top < 0.0 then -g.ball.yVelocity else g.ball.yVelocity
    ensures c.sounds == if g.ball.rect.top < 0.0 then [Boop] else []
  {
    if g.ball.rect.top < 0.0 then Collision(g.(ball := Balls.ReversedY(g.ball)), [Boop]) else Collision(g, [])
  }

  /** Ball past the left edge: reverse horizontally and bop. */
  function LeftCheck(g: GameState): (c: Collision)
    ensures c.game.(ball := g.ball) == g && c.game.ball.rect == g.ball.rect
    ensures c.game.ball.width == g.ball.width && c.game.ball.height == g.ball.height
    ensures c.game.ball == if g.ball.rect.left < 0.0 then Balls.ReversedX(g.ball) else g.ball
    ensures c.game.ball.yVelocity == g.ball.yVelocity
    ensures c.game.ball.xVelocity == if g.ball.rect.left < 0.0 then -g.ball.xVelocity else g.ball.xVelocity
    ensures c.sounds == if g.ball.rect.left < 0.0 then [Bop] else []
  {
    if g.ball.rect.left < 0.0 then Collision(g.(ball := Balls.ReversedX(g.ball)), [Bop]) else Collision(g, [])
  }

  /** Ball past the right edge: reverse horizontally and bop. */
  function RightCheck(g: GameState): (c: Collision)
    ensures c.game.(ball := g.ball) == g && c.game.ball.rect == g.ball.rect
    ensures c.game.ball.width == g.ball.width && c.game.ball.height == g.ball.height
    ensures c.game.ball == if g.ball.rect.right > g.screenX as real then Balls.ReversedX(g.ball) else g.ball
    ensures c.game.ball.yVelocity == g.ball.yVelocity
    ensures c.game.ball.xVelocity == if g.ball.rect.right > g.screenX as real then -g.ball.xVelocity else g.ball.xVelocity
    ensures c.sounds == if g.ball.rect.right > g.screenX as real then [Bop] else []
  {
    if g.ball.rect.right > g.screenX as real then Collision(g.(ball := Balls.ReversedX(g.ball)), [Bop]) else Collision(g, [])
  }

  /** An obstacle past the right edge reverses, then one past the left edge reverses. */
  function EdgeCheck(o: Obstacles.ObstacleState, screenX: int): (r: Obstacles.ObstacleState)
    ensures r.(speed := o.speed) == o
  {
    var o1 := if o.rect.right > screenX as real then Obstacles.Reversed(o) else o;
    if o1.rect.left < 0.0 then Obstacles.Reversed(o1) else o1
  }

  /** The ball misses when its bottom edge is below the screen. */
  predicate Misses(g: GameState)
  {
    g.ball.rect.bottom > g.screenY as real
  }

  /** The ball against the paddle, then against each obstacle in turn. */
  function BatAndObstacleChecks(g: GameState): (c: Collision)
    ensures c.game.(ball := g.ball, score := g.score) == g && c.game.ball.rect == g.ball.rect
    ensures c.game.score == if Intersects(g.bat.rect, g.ball.rect) then g.score + 1 else g.score
    ensures c.sounds == if Intersects(g.bat.rect, g.ball.rect) then [Beep] else []
  {
    var c1 := PaddleCheck(g);
    var g2 := ObstacleCheck(c1.game, c1.game.obstacle.rect);
    Collision(ObstacleCheck(g2, g2.addObstacle.rect), c1.sounds)
  }

  /** The top, left and right wall tests, in that order. */
  function WallChecks(g: GameState): (c: Collision)
    ensures c.game.(ball := g.ball) == g && c.game.ball.rect == g.ball.rect
    ensures c.game.ball.width == g.ball.width && c.game.ball.height == g.ball.height
    ensures Beep !in c.sounds && Miss !in c.sounds
  {
    var c5 := TopCheck(g);
    var c6 := LeftCheck(c5.game);
    var c7 := RightCheck(c6.game);
    Collision(c7.game, c5.sounds + c6.sounds + c7.sounds)
  }

  /** Both obstacles tested against the screen's side edges. */
  function EdgeChecks(g: GameState): (r: GameState)
    ensures r.(obstacle := g.obstacle, addObstacle := g.addObstacle) == g
  {
    g.(obstacle := EdgeCheck(g.obstacle, g.screenX), addObstacle := EdgeCheck(g.addObstacle, g.screenX))
  }

  /** The whole collision pass, in the order the game runs its tests. */
  function Collided(g: GameState): (c: Collision)
    ensures c.game.bat == g.bat && c.game.fps == g.fps
    ensures c.game.screenX == g.screenX && c.game.screenY == g.screenY
  {
    var c1 := BatAndObstacleChecks(g);
    var c4 := MissCheck(c1.game);
    var c7 := WallChecks(c4.game);
    Collision(EdgeChecks(c7.game), c1.sounds + c4.sounds + c7.sounds)
  }

  /** The collision pass keeps between one and three lives, moves the score by one
      point up or back to zero, loses a life (or restarts, paused) exactly on a miss,
      beeps exactly on a paddle hit and leaves the paddle and the frame rate alone. */
  lemma CollisionPass(g: GameState)
    ensures var c := Collided(g);
      (1 <= g.lives <= 3 ==> 1 <= c.game.lives <= 3) &&
      (c.game.score == 0 || c.game.score == g.score || c.game.score == g.score + 1) &&
      c.game.lives == (if !Misses(g) then g.lives else if g.lives == 1 then 3 else g.lives - 1) &&
      c.game.paused == (g.paused || (Misses(g) && g.lives == 1)) &&
      ((Beep in c.sounds) <==> Intersects(g.bat.rect, g.ball.rect)) &&
      ((Miss in c.sounds) <==> Misses(g)) &&
      c.game.bat == g.bat && c.game.fps == g.fps &&
      c.game.screenX == g.screenX && c.game.screenY == g.screenY
  {
  }

  /** A touch: a press unpauses and steers toward the pressed half (right only when
      strictly right of screenX / 2); a release stops the paddle. */
  function Touched(g: GameState, action: TouchAction, touchX: real): (r: GameState)
    ensures action == ActionDown ==>
      !r.paused && r.bat.moving != Bats.Stopped &&
      (r.bat.moving == Bats.Right <==> touchX > JavaDiv(g.screenX, 2) as real)
    ensures action == ActionUp ==> r.paused == g.paused && r.bat.moving == Bats.Stopped
    ensures action == ActionOther ==> r == g
    ensures r.bat.(moving := g.bat.moving) == g.bat
    ensures r.(paused := g.paused, bat := g.bat) == g
  {
    match action
    case ActionDown =>
      var state := if touchX > JavaDiv(g.screenX, 2) as real then Bats.Right else Bats.Left;
      g.(paused := false, bat := Bats.WithMovement(g.bat, state))
    case ActionUp =>
      g.(bat := Bats.WithMovement(g.bat, Bats.Stopped))
    case ActionOther =>
      g
  }

  /** The frame-rate measurement: frames per second from the milliseconds the last
      frame took; a frame that took no time keeps the previous value. */
  function FpsStep(fps: int, elapsed: int): (r: int)
    ensures elapsed <= 0 ==> r == fps
    ensures elapsed > 0 ==> 0 <= r && r * elapsed <= MillisInSecond < (r + 1) * elapsed
  {
    if elapsed > 0 then
      assert (MillisInSecond / elapsed) * elapsed + MillisInSecond % elapsed == MillisInSecond;
      MillisInSecond / elapsed
    else
      fps
  }

  /** One pass of the game loop: when not paused, move and then collide; then
      measure the frame rate. Drawing is not modelled. */
  function Ticked(g: GameState, elapsed: int): (r: GameState)
    requires g.paused || g.fps > 0
    ensures 1 <= g.lives <= 3 ==> 1 <= r.lives <= 3
    ensures r.score == 0 || r.score == g.score || r.score == g.score + 1
    ensures r.fps == FpsStep(g.fps, elapsed)
    ensures g.paused ==> r == g.(fps := r.fps)
    ensures r.screenX == g.screenX && r.screenY == g.screenY
  {
    var g1 := if g.paused then g else (CollisionPass(Updated(g)); Collided(Updated(g)).game);
    g1.(fps := FpsStep(g1.fps, elapsed))
  }

  /** The game as its constructor assembles it, before the new game starts: fresh
      ball and paddle, the obstacles built as the `count`-th and the next one,
      no score or lives yet, paused, no frame rate measured. */
  function Built(x: int, y: int, count: int): (r: GameState)
    ensures r.score == 0 && r.lives == 0 && r.paused && r.fps == 0
    ensures r.screenX == x && r.screenY == y && r.bat.screenX == x
    ensures r.ball.width == r.ball.height && r.bat.moving == Bats.Stopped
    ensures x >= 0 ==> Bats.OnScreen(r.bat)
    ensures r.obstacle.x == (if count >= 1 then (x - 225) as real else 0.0)
    ensures count >= 0 ==> r.addObstacle.x == (x - 225) as real
    ensures r.ball == Balls.Initial(x) && r.bat == Bats.Initial(x, y)
    ensures r.obstacle == Obstacles.Spawn(x, y, count) && r.addObstacle == Obstacles.Spawn(x, y, count + 1)
  {
    GameState(Balls.Initial(x), Bats.Initial(x, y),
              Obstacles.Spawn(x, y, count), Obstacles.Spawn(x, y, count + 1),
              0, 0, true, 0, x, y)
  }

  /** The mutable game. */
  class PongGame {
    const screenX: int
    const screenY: int
    var fps: int
    var score: int
    var lives: int
    var paused: bool
    const bat: Bats.Bat
    const obstacle: Obstacles.Obstacle
    const addObstacle: Obstacles.Obstacle
    const ball: Balls.Ball

    function State(): GameState
      reads this, ball, bat, obstacle, addObstacle
    {
      GameState(ball.State(), bat.State(), obstacle.State(), addObstacle.State(),
                score, lives, paused, fps, screenX, screenY)
    }

    /** The two obstacles are different objects. */
    predicate Distinct()
      reads this
    {
      obstacle != addObstacle
    }

    /** Builds the entities for an x-by-y screen (the two obstacles take the next
      two values of the shared counter) and starts a new game, paused. */
    constructor (x: int, y: int, counter: Obstacles.SpawnCounter)
      modifies counter
      ensures Distinct() && InRound(State())
      ensures counter.count == old(counter.count) + 2
      ensures State() == NewGame(Built(x, y, old(counter.count)))
    {
      ghost var built := counter.count;
      var b := new Balls.Ball(x);
      var p := new Bats.Bat(x, y);
      var first := new Obstacles.Obstacle(x, y, counter);
      var second := new Obstacles.Obstacle(x, y, counter);
      screenX, screenY := x, y;
      ball, bat, obstacle, addObstacle := b, p, first, second;
      fps, score, lives, paused := 0, 0, 0, true;
      new;
      assert State() == Built(x, y, built);
      StartNewGame();
    }

    method StartNewGame()
      requires Distinct()
      modifies this, ball, obstacle, addObstacle
      ensures Distinct() && InRound(State())
      ensures State() == NewGame(old(State()))
    {
      score := 0;
      lives := 3;
      ball.Reset(screenX, screenY);
      obstacle.Reset(0.0, 0.0);
      addObstacle.Reset((screenX - 225) as real, screenY as real / 2.5);
    }

    method Update()
      requires Distinct() && fps > 0
      modifies ball, bat, obstacle, addObstacle
      ensures State() == Updated(old(State()))
    {
      ball.Update(fps);
      bat.Update(fps);
      obstacle.Update(fps);
      addObstacle.Update(fps);
    }

    method DetectCollisions() returns (sounds: seq<Sound>)
      requires Distinct()
      modifies this, ball, obstacle, addObstacle
      ensures Distinct()
      ensures Collision(State(), sounds) == Collided(old(State()))
    {
      sounds := BounceOffBatAndObstacles();
      var missSounds := CheckMiss();
      var wallSounds := BounceOffWalls();
      sounds := sounds + missSounds + wallSounds;
      ReverseObstaclesAtEdges();
    }

    /** The ball against the paddle, then against each obstacle. */
    method BounceOffBatAndObstacles() returns (sounds: seq<Sound>)
      modifies this, ball
      ensures Collision(State(), sounds) == BatAndObstacleChecks(old(State()))
    {
      ghost var c1 := PaddleCheck(State());
      sounds := [];
      if Intersects(bat.GetRect(), ball.rect) {
        ball.BatBounce(bat.GetRect());
        ball.IncreaseVelocity();
        score := score + 1;
        sounds := sounds + [Beep];
      }
      assert State() == c1.game;
      ghost var g2 := ObstacleCheck(c1.game, c1.game.obstacle.rect);
      if Intersects(obstacle.GetObstacle(), ball.rect) {
        ball.BatBounce(obstacle.GetObstacle());
      }
      assert State() == g2;
      if Intersects(addObstacle.GetObstacle(), ball.rect) {
        ball.BatBounce(addObstacle.GetObstacle());
      }
    }

    /** The ball below the screen: a life lost, and on the last one a paused new game. */
    method CheckMiss() returns (sounds: seq<Sound>)
      requires Distinct()
      modifies this, ball, obstacle, addObstacle
      ensures Distinct()
      ensures Collision(State(), sounds) == MissCheck(old(State()))
    {
      sounds := [];
      if ball.rect.bottom > screenY as real {
        ball.ReverseYVelocity();
        lives := lives - 1;
        sounds := sounds + [Miss];
        if lives == 0 {
          paused := true;
          StartNewGame();
        }
      }
    }

    /** The ball's top, left and right wall tests, each independent of the others. */
    method BounceOffWalls() returns (sounds: seq<Sound>)
      modifies ball
      ensures Collision(State(), sounds) == WallChecks(old(State()))
    {
      ghost var c5 := TopCheck(State());
      sounds := [];
      if ball.rect.top < 0.0 {
        ball.ReverseYVelocity();
        sounds := sounds + [Boop];
      }
      assert State() == c5.game;
      ghost var c6 := LeftCheck(c5.game);
      if ball.rect.left < 0.0 {
        ball.ReverseXVelocity();
        sounds := sounds + [Bop];
      }
      assert State() == c6.game;
      if ball.rect.right > screenX as real {
        ball.ReverseXVelocity();
        sounds := sounds + [Bop];
      }
    }

    /** Each obstacle reverses once per screen edge it is past. */
    method ReverseObstaclesAtEdges()
      requires Distinct()
      modifies obstacle, addObstacle
      ensures State() == EdgeChecks(old(State()))
    {
      if obstacle.GetObstacle().right > screenX as real {
        obstacle.ReverseVelocity();
      }
      if obstacle.GetObstacle().left < 0.0 {
        obstacle.ReverseVelocity();
      }
      if addObstacle.GetObstacle().right > screenX as real {
        addObstacle.ReverseVelocity();
      }
      if addObstacle.GetObstacle().left < 0.0 {
        addObstacle.ReverseVelocity();
      }
    }

    /** One pass of the game loop with the frame's measured duration in milliseconds. */
    method RunFrame(elapsed: int)
      requires Distinct() && (paused || fps > 0)
      modifies this, ball, bat, obstacle, addObstacle
      ensures Distinct()
      ensures State() == Ticked(old(State()), elapsed)
      ensures old(InRound(State())) ==> InRound(State())
    {
      if !paused {
        Update();
        var _ := DetectCollisions();
      }
      if elapsed > 0 {
        fps := MillisInSecond / elapsed;
      }
    }

    method OnTouchEvent(action: TouchAction, touchX: real) returns (handled: bool)
      modifies this, bat
      ensures State() == Touched(old(State()), action, touchX)
      ensures handled
    {
      match action {
        case ActionDown =>
          paused := false;
          if touchX > JavaDiv(screenX, 2) as real {
            bat.SetMovementState(Bats.Right);
          } else {
            bat.SetMovementState(Bats.Left);
          }
        case ActionUp =>
          bat.SetMovementState(Bats.Stopped);
        case ActionOther =>
      }
      handled := true;
    }
  }
}
