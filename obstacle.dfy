/** A sliding obstacle: a rectangle that moves only horizontally and bounces the ball. */
module Obstacles {
  import opened Geometry

  /** Abstract value of an obstacle. `x` and `y` are its coordinates; `rect` is
      what the game draws and tests, and it follows `x` only after an update. */
  datatype ObstacleState = ObstacleState(rect: Rect, x: real, y: real, speed: real, length: real)

  /** The rectangle is exactly `length` wide. */
  predicate Spans(o: ObstacleState)
  {
    o.rect.right == o.rect.left + o.length
  }

  /** The obstacle built when `count` obstacles have been built before: the first
      one at (0, 50), every later one at (sx - 225, sy / 2.5); length sx / 8,
      height sy / 20, speed sx / 3 to the right. */
  function Spawn(sx: int, sy: int, count: int): (o: ObstacleState)
    ensures count < 1 ==> o.x == 0.0 && o.y == 50.0
    ensures count >= 1 ==> o.x == (sx - 225) as real && o.y == sy as real * 2.0 / 5.0
    ensures o.rect == Rect(o.x, o.y, o.x + o.length, o.y + JavaDiv(sy, 20) as real)
    ensures o.length == JavaDiv(sx, 8) as real && o.speed == JavaDiv(sx, 3) as real
    ensures Spans(o)
  {
    var height := JavaDiv(sy, 20) as real;
    var length := JavaDiv(sx, 8) as real;
    var speed := JavaDiv(sx, 3) as real;
    var x := if count >= 1 then (sx - 225) as real else 0.0;
    var y := if count >= 1 then sy as real / 2.5 else 50.0;
    ObstacleState(Rect(x, y, x + length, y + height), x, y, speed, length)
  }

  /** The speed negated; nothing else changes. */
  function Reversed(o: ObstacleState): (r: ObstacleState)
    ensures r.speed == -o.speed && r.(speed := o.speed) == o
  {
    o.(speed := -o.speed)
  }

  /** Moves the coordinates only; the rectangle and the speed stay as they are. */
  function Relocated(o: ObstacleState, sx: real, sy: real): (r: ObstacleState)
    ensures r.rect == o.rect && r.speed == o.speed && r.length == o.length
    ensures r.x == sx && r.y == sy
  {
    o.(x := sx, y := sy)
  }

  /** One frame of sliding: x advances by speed / fps and the rectangle's
      horizontal edges follow it; there is no clamping to the screen. */
  function Slid(o: ObstacleState, fps: int): (r: ObstacleState)
    requires fps > 0
    ensures r.x - o.x == o.speed / fps as real
    ensures r.rect == Rect(r.x, o.rect.top, r.x + o.length, o.rect.bottom)
    ensures Spans(r)
    ensures r.speed == o.speed && r.length == o.length && r.y == o.y
  {
    var x := o.x + o.speed / fps as real;
    o.(x := x, rect := o.rect.(right := x + o.length, left := x))
  }

  lemma ReverseInvolution(o: ObstacleState)
    ensures Reversed(o).speed == -o.speed
    ensures Reversed(o).(speed := o.speed) == o
    ensures Reversed(Reversed(o)) == o
  {
  }

  /** The first two obstacles of a screen at least 143 pixels high do not overlap:
      the first ends above the point where the second begins. */
  lemma FirstTwoSpawnsApart(sx: int, sy: int)
    requires sy >= 143
    ensures !Intersects(Spawn(sx, sy, 0).rect, Spawn(sx, sy, 1).rect)
  {
    var h := JavaDiv(sy, 20);
    assert h * 20 <= sy;
    assert 50.0 + h as real <= sy as real * 2.0 / 5.0;
  }

  /** Every obstacle built after the first gets the same rectangle, coordinates,
      speed and length, so a third obstacle would coincide with the second. */
  lemma LaterSpawnsCoincide(sx: int, sy: int, c1: int, c2: int)
    requires c1 >= 1 && c2 >= 1
    ensures Spawn(sx, sy, c1) == Spawn(sx, sy, c2)
  {
  }

  /** A relocation followed by a frame of sliding leaves the top and bottom
      edges where they were: nothing moves an obstacle vertically. */
  lemma SlideKeepsVerticalEdges(o: ObstacleState, fps: int, sx: real, sy: real)
    requires fps > 0
    ensures Slid(Relocated(o, sx, sy), fps).rect.top == o.rect.top
    ensures Slid(Relocated(o, sx, sy), fps).rect.bottom == o.rect.bottom
  {
  }

  /** An obstacle moving right past the screen's right edge keeps going: an update
      alone never brings it back. */
  lemma SlideDoesNotClamp(o: ObstacleState, fps: int, screenX: real)
    requires fps > 0 && o.speed > 0.0 && o.x > screenX
    ensures Slid(o, fps).x > screenX
  {
  }

  /** The counter the constructor reads and increments: the source's static field,
      shared by every obstacle built in one process. */
  class SpawnCounter {
    var count: int

    constructor ()
      ensures count == 0
    {
      count := 0;
    }
  }

  /** The mutable obstacle object. */
  class Obstacle {
    var rect: Rect
    var x: real
    var y: real
    var speed: real
    const length: real

    function State(): ObstacleState
      reads this
    {
      ObstacleState(rect, x, y, speed, length)
    }

    constructor (sx: int, sy: int, counter: SpawnCounter)
      modifies counter
      ensures State() == Spawn(sx, sy, old(counter.count))
      ensures counter.count == old(counter.count) + 1
    {
      var height := JavaDiv(sy, 20) as real;
      length := JavaDiv(sx, 8) as real;
      speed := JavaDiv(sx, 3) as real;
      var x0, y0;
      if counter.count >= 1 {
        x0 := (sx - 225) as real;
        y0 := sy as real / 2.5;
      } else {
        x0 := 0.0;
        y0 := 50.0;
      }
      x, y := x0, y0;
      rect := Rect(x0, y0, x0 + JavaDiv(sx, 8) as real, y0 + height);
      new;
      counter.count := counter.count + 1;
    }

    function GetObstacle(): (r: Rect)
      reads this
      ensures r == State().rect
    {
      rect
    }

    method ReverseVelocity()
      modifies this
      ensures State() == Reversed(old(State()))
    {
      speed := -speed;
    }

    method Reset(sx: real, sy: real)
      modifies this
      ensures State() == Relocated(old(State()), sx, sy)
    {
      x := sx;
      y := sy;
    }

    method Update(fps: int)
      requires fps > 0
      modifies this
      ensures State() == Slid(old(State()), fps)
    {
      x := x + speed / fps as real;
      rect := rect.(right := x + length);
      rect := rect.(left := x);
    }
  }
}
