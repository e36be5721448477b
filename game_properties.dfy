/** What one collision pass, one new game and the frame-rate step promise. */
module GameProperties {
  import opened Geometry
  import Balls
  import Obstacles
  import opened Game

  /** A rectangle past exactly one of the screen's side edges: a velocity that
      each edge it is past reverses once ends up reversed. */
  predicate PastOneSide(r: Rect, screenX: int)
  {
    (r.right > screenX as real) != (r.left < 0.0)
  }

  /** `v` reversed once for each side edge of the screen `r` is past. */
  function SideBounced(v: real, r: Rect, screenX: int): (w: real)
    ensures w == -v || w == v
    ensures v != 0.0 ==> (w == -v <==> PastOneSide(r, screenX))
  {
    if PastOneSide(r, screenX) then -v else v
  }

  /** A paddle hit scores exactly one point, beeps exactly once and first, and, when
      the ball does not also miss, leaves both velocity components 1.1 times as
      fast as before (the later bounces change only their signs). */
  lemma PaddleHitScores(g: GameState)
    requires Intersects(g.bat.rect, g.ball.rect) && !Misses(g)
    ensures Collided(g).game.score == g.score + 1
    ensures Collided(g).sounds[0] == Beep && Beep !in Collided(g).sounds[1..]
    ensures Abs(Collided(g).game.ball.xVelocity) == 1.1 * Abs(g.ball.xVelocity)
    ensures Abs(Collided(g).game.ball.yVelocity) == 1.1 * Abs(g.ball.yVelocity)
  {
    SpeedAfterCollisions(g);
    var c1 := BatAndObstacleChecks(g);
    var c4 := MissCheck(c1.game);
    assert c4 == Collision(c1.game, []);
    var c7 := WallChecks(c4.game);
    assert Collided(g).sounds == [Beep] + c7.sounds;
    assert Collided(g).sounds[1..] == c7.sounds;
  }

  /** An obstacle bounce changes neither velocity component's size. */
  lemma ObstacleBounceKeepsSpeed(g: GameState, target: Rect)
    ensures Abs(ObstacleCheck(g, target).ball.xVelocity) == Abs(g.ball.xVelocity)
    ensures Abs(ObstacleCheck(g, target).ball.yVelocity) == Abs(g.ball.yVelocity)
  {
  }

  /** The paddle and obstacle tests change each velocity component's size only
      through the paddle's speed-up. */
  lemma BatAndObstacleSpeed(g: GameState)
    ensures var factor := if Intersects(g.bat.rect, g.ball.rect) then 1.1 else 1.0;
      var c := BatAndObstacleChecks(g);
      Abs(c.game.ball.xVelocity) == factor * Abs(g.ball.xVelocity) &&
      Abs(c.game.ball.yVelocity) == factor * Abs(g.ball.yVelocity)
  {
    var c1 := PaddleCheck(g);
    var g2 := ObstacleCheck(c1.game, c1.game.obstacle.rect);
    ObstacleBounceKeepsSpeed(c1.game, c1.game.obstacle.rect);
    ObstacleBounceKeepsSpeed(g2, g2.addObstacle.rect);
  }

  /** The three wall tests change neither velocity component's size. */
  lemma WallsKeepSpeed(g: GameState)
    ensures Abs(WallChecks(g).game.ball.xVelocity) == Abs(g.ball.xVelocity)
    ensures Abs(WallChecks(g).game.ball.yVelocity) == Abs(g.ball.yVelocity)
  {
  }

  /** Whatever else happens in the pass, the wall tests flip the vertical velocity
      when the ball is above the top edge and the horizontal one once for each
      side edge it is past, play a boop and the bops in order, and change
      nothing but the ball's velocity. */
  lemma WallChecksFlip(g: GameState)
    ensures WallChecks(g).game.ball.yVelocity == if g.ball.rect.top < 0.0 then -g.ball.yVelocity else g.ball.yVelocity
    ensures WallChecks(g).game.ball.xVelocity == SideBounced(g.ball.xVelocity, g.ball.rect, g.screenX)
    ensures WallChecks(g).sounds ==
      (if g.ball.rect.top < 0.0 then [Boop] else []) +
      (if g.ball.rect.left < 0.0 then [Bop] else []) +
      (if g.ball.rect.right > g.screenX as real then [Bop] else [])
    ensures WallChecks(g).game.(ball := g.ball) == g && WallChecks(g).game.ball.rect == g.ball.rect
    ensures WallChecks(g).game.ball.width == g.ball.width && WallChecks(g).game.ball.height == g.ball.height
  {
    var c5 := TopCheck(g);
    var c6 := LeftCheck(c5.game);
    var c7 := RightCheck(c6.game);
    assert c6.game.ball.rect == g.ball.rect && c6.game.screenX == g.screenX;
  }

  /** Without a miss, the collision pass changes each velocity component's size
      only through the paddle's speed-up; every other response flips a sign. */
  lemma SpeedAfterCollisions(g: GameState)
    requires !Misses(g)
    ensures var factor := if Intersects(g.bat.rect, g.ball.rect) then 1.1 else 1.0;
      Abs(Collided(g).game.ball.xVelocity) == factor * Abs(g.ball.xVelocity) &&
      Abs(Collided(g).game.ball.yVelocity) == factor * Abs(g.ball.yVelocity)
  {
    var c1 := BatAndObstacleChecks(g);
    BatAndObstacleSpeed(g);
    var c4 := MissCheck(c1.game);
    assert c4.game == c1.game;
    WallsKeepSpeed(c4.game);
  }

  /** Losing the last life: lives back to three, score to zero, the round paused,
      the miss sound played and the ball served again (its rectangle at the serve). */
  lemma GameOverRestarts(g: GameState)
    requires g.lives == 1 && Misses(g)
    ensures Collided(g).game.lives == 3 && Collided(g).game.score == 0
    ensures Collided(g).game.paused
    ensures Miss in Collided(g).sounds
    ensures Collided(g).game.ball.rect == Balls.Served(g.ball, g.screenX, g.screenY).rect
  {
    CollisionPass(g);
    var c1 := BatAndObstacleChecks(g);
    assert c1.game.ball.rect == g.ball.rect && c1.game.lives == 1;
    var c4 := MissCheck(c1.game);
    assert c4.game.ball.rect == Balls.Served(g.ball, g.screenX, g.screenY).rect;
    assert c4.game.score == 0;
  }

  /** A miss with lives to spare: one life fewer, the score kept (plus the paddle's
      point) and the round still running if it was. */
  lemma MissCostsOneLife(g: GameState)
    requires 2 <= g.lives && Misses(g)
    ensures Collided(g).game.lives == g.lives - 1
    ensures Collided(g).game.score == if Intersects(g.bat.rect, g.ball.rect) then g.score + 1 else g.score
    ensures Collided(g).game.paused == g.paused
  {
    CollisionPass(g);
    var c1 := BatAndObstacleChecks(g);
    assert c1.game.lives == g.lives;
  }

  /** With no paddle or obstacle contact and no miss, only the walls act: the top
      flips the vertical velocity, each side flips the horizontal one, and each
      wall plays its own sound, in order. */
  lemma WallBounces(g: GameState)
    requires !Intersects(g.bat.rect, g.ball.rect) && !Misses(g)
    requires !Intersects(g.obstacle.rect, g.ball.rect) && !Intersects(g.addObstacle.rect, g.ball.rect)
    ensures Collided(g).game.ball.yVelocity == if g.ball.rect.top < 0.0 then -g.ball.yVelocity else g.ball.yVelocity
    ensures Collided(g).game.ball.xVelocity ==
      SideBounced(g.ball.xVelocity, g.ball.rect, g.screenX)
    ensures Collided(g).game.ball.rect == g.ball.rect
    ensures Collided(g).sounds ==
      (if g.ball.rect.top < 0.0 then [Boop] else []) +
      (if g.ball.rect.left < 0.0 then [Bop] else []) +
      (if g.ball.rect.right > g.screenX as real then [Bop] else [])
    ensures Collided(g).game.score == g.score && Collided(g).game.lives == g.lives
  {
    var c1 := PaddleCheck(g);
    assert c1.game == g;
    var g2 := ObstacleCheck(c1.game, c1.game.obstacle.rect);
    assert g2 == g;
    assert BatAndObstacleChecks(g) == Collision(g, []);
    assert MissCheck(g) == Collision(g, []);
    var c7 := WallChecks(g);
    assert Collided(g) == Collision(EdgeChecks(c7.game), [] + [] + c7.sounds);
  }

  /** The edge test reverses an obstacle once for each side edge it is past and
      leaves its rectangle where it is. */
  lemma EdgeCheckFlips(o: Obstacles.ObstacleState, screenX: int)
    ensures EdgeCheck(o, screenX).speed == SideBounced(o.speed, o.rect, screenX)
    ensures EdgeCheck(o, screenX).rect == o.rect
  {
  }

  /** Everything the pass does before the edge tests leaves both obstacles'
      rectangles and speeds as they were. */
  lemma ObstaclesBeforeEdges(g: GameState)
    ensures var c7 := WallChecks(MissCheck(BatAndObstacleChecks(g).game).game);
      c7.game.obstacle.rect == g.obstacle.rect && c7.game.obstacle.speed == g.obstacle.speed &&
      c7.game.addObstacle.rect == g.addObstacle.rect && c7.game.addObstacle.speed == g.addObstacle.speed &&
      c7.game.screenX == g.screenX
  {
    var c1 := BatAndObstacleChecks(g);
    assert c1.game.obstacle == g.obstacle && c1.game.addObstacle == g.addObstacle;
  }

  /** Each obstacle's speed is reversed once for each screen edge it is past, even
      when a new game starts in the same pass; its rectangle does not move. */
  lemma ObstacleEdgeFlips(g: GameState)
    ensures Collided(g).game.obstacle.speed == SideBounced(g.obstacle.speed, g.obstacle.rect, g.screenX)
    ensures Collided(g).game.addObstacle.speed == SideBounced(g.addObstacle.speed, g.addObstacle.rect, g.screenX)
    ensures Collided(g).game.obstacle.rect == g.obstacle.rect
    ensures Collided(g).game.addObstacle.rect == g.addObstacle.rect
  {
    ObstaclesBeforeEdges(g);
    var c7 := WallChecks(MissCheck(BatAndObstacleChecks(g).game).game);
    EdgeCheckFlips(c7.game.obstacle, g.screenX);
    EdgeCheckFlips(c7.game.addObstacle, g.screenX);
  }

  /** Starting a new game twice in a row is the same as starting it once. */
  lemma NewGameIdempotent(g: GameState)
    ensures NewGame(NewGame(g)) == NewGame(g)
  {
  }

  /** A frame that took longer than a second yields a measured rate of zero, and
      the next unpaused update would divide by it. */
  lemma SlowFrameGivesZeroFps(fps: int, elapsed: int)
    requires elapsed > MillisInSecond
    ensures FpsStep(fps, elapsed) == 0
  {
  }

  /** A frame of at most one second, or one that took no measurable time after a
      positive rate, leaves a positive rate. */
  lemma FpsStaysPositive(fps: int, elapsed: int)
    requires fps > 0 && elapsed <= MillisInSecond
    ensures FpsStep(fps, elapsed) >= 1
  {
  }
}
