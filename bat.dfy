/** The player's paddle: slides along the bottom of the screen and never leaves it. */
module Bats {
  import opened Geometry

  /** The three movement states the paddle's integer flag takes (STOPPED, LEFT, RIGHT). */
  datatype Movement = Stopped | Left | Right

  /** Abstract value of a paddle. */
  datatype BatState = BatState(rect: Rect, length: real, x: real, speed: real, screenX: int, moving: Movement)

  /** The paddle lies wholly within the screen's width. */
  predicate OnScreen(b: BatState)
  {
    0.0 <= b.x && b.x + b.length <= b.screenX as real
  }

  /** The rectangle's horizontal edges follow the paddle's x coordinate. */
  predicate Tracks(b: BatState)
  {
    b.rect.left == b.x && b.rect.right == b.x + b.length
  }

  /** A freshly constructed paddle: length sx / 8 and height sy / 40 resting on the
      bottom edge, left edge at sx / 2, speed sx pixels per second, not moving. */
  function Initial(sx: int, sy: int): (b: BatState)
    ensures b.screenX == sx && b.speed == sx as real && b.moving == Stopped
    ensures b.length == JavaDiv(sx, 8) as real && b.x == JavaDiv(sx, 2) as real
    ensures b.rect.bottom == sy as real && b.rect.top == (sy - JavaDiv(sy, 40)) as real
    ensures Tracks(b)
    ensures sx >= 0 ==> OnScreen(b) && b.length <= sx as real
  {
    var length := JavaDiv(sx, 8) as real;
    var height := JavaDiv(sy, 40) as real;
    var x := JavaDiv(sx, 2) as real;
    var y := sy as real - height;
    BatState(Rect(x, y, x + length, y + height), length, x, sx as real, sx, Stopped)
  }

  function WithMovement(b: BatState, state: Movement): (r: BatState)
    ensures r.moving == state && r.(moving := b.moving) == b
  {
    b.(moving := state)
  }

  /** The x coordinate after moving one frame, before clamping. */
  function Steered(moving: Movement, x: real, speed: real, fps: int): (r: real)
    requires fps > 0
    ensures moving == Stopped ==> r == x
    ensures moving != Stopped ==> Abs(r - x) == Abs(speed / fps as real)
  {
    match moving
    case Left => x - speed / fps as real
    case Right => x + speed / fps as real
    case Stopped => x
  }

  /** Pull x back so that the paddle starts at 0 at the least and ends at the
      screen's right edge at the most. */
  function Clamped(x: real, length: real, screenX: int): (r: real)
    ensures 0.0 <= length <= screenX as real ==> 0.0 <= r && r + length <= screenX as real
    ensures 0.0 <= x && x + length <= screenX as real ==> r == x
    ensures x < 0.0 ==> r == 0.0
    ensures 0.0 <= x && x + length > screenX as real ==> r == screenX as real - length
  {
    if x < 0.0 then 0.0
    else if x + length > screenX as real then screenX as real - length
    else x
  }

  /** One frame of paddle movement. */
  function Moved(b: BatState, fps: int): (r: BatState)
    requires fps > 0
    ensures Tracks(r)
    ensures r.rect.top == b.rect.top && r.rect.bottom == b.rect.bottom
    ensures r.length == b.length && r.speed == b.speed && r.screenX == b.screenX && r.moving == b.moving
    ensures 0.0 <= b.length <= b.screenX as real ==> OnScreen(r)
    ensures var step := b.speed / fps as real;
      var target := b.x + (if b.moving == Left then -step else if b.moving == Right then step else 0.0);
      (target < 0.0 ==> r.x == 0.0) &&
      (0.0 <= target && target + b.length <= b.screenX as real ==> r.x == target) &&
      (0.0 <= target && target + b.length > b.screenX as real ==> r.x == b.screenX as real - b.length)
  {
    var x := Clamped(Steered(b.moving, b.x, b.speed, fps), b.length, b.screenX);
    b.(x := x, rect := b.rect.(left := x, right := x + b.length))
  }

  /** Before clamping, LEFT moves by -speed/fps, RIGHT by +speed/fps, STOPPED not at all. */
  lemma SteeringDirection(moving: Movement, x: real, speed: real, fps: int)
    requires fps > 0 && speed >= 0.0
    ensures moving == Left ==> Steered(moving, x, speed, fps) <= x
    ensures moving == Right ==> Steered(moving, x, speed, fps) >= x
    ensures moving == Stopped ==> Steered(moving, x, speed, fps) == x
    ensures Steered(Right, x, speed, fps) - x == speed / fps as real
    ensures Steered(Left, x, speed, fps) - x == x - Steered(Right, x, speed, fps)
  {
  }

  /** Clamping twice is clamping once. */
  lemma ClampIdempotent(x: real, length: real, screenX: int)
    requires 0.0 <= length <= screenX as real
    ensures Clamped(Clamped(x, length, screenX), length, screenX) == Clamped(x, length, screenX)
  {
  }

  /** A stopped paddle already on screen stays exactly where it is. */
  lemma StoppedOnScreenIsFixed(b: BatState, fps: int)
    requires fps > 0 && b.moving == Stopped && OnScreen(b) && Tracks(b)
    ensures Moved(b, fps) == b
  {
  }

  /** Setting the movement state changes nothing else. */
  lemma WithMovementOnlyMoving(b: BatState, state: Movement)
    ensures WithMovement(b, state).moving == state
    ensures WithMovement(b, state).(moving := b.moving) == b
  {
  }

  /** With the length its constructor gives it on a screen of non-negative width,
      the paddle is on screen after any frame, whatever x it started from. */
  lemma ConstructedStaysOnScreen(sx: int, sy: int, b: BatState, fps: int)
    requires sx >= 0 && fps > 0
    requires b.screenX == sx && b.length == Initial(sx, sy).length
    ensures OnScreen(Moved(b, fps))
  {
  }

  /** The mutable paddle object. */
  class Bat {
    var rect: Rect
    const length: real
    var x: real
    const speed: real
    const screenX: int
    var moving: Movement

    function State(): BatState
      reads this
    {
      BatState(rect, length, x, speed, screenX, moving)
    }

    constructor (sx: int, sy: int)
      ensures State() == Initial(sx, sy)
    {
      screenX := sx;
      length := JavaDiv(sx, 8) as real;
      var height := JavaDiv(sy, 40) as real;
      x := JavaDiv(sx, 2) as real;
      var y := sy as real - height;
      rect := Rect(JavaDiv(sx, 2) as real, y, JavaDiv(sx, 2) as real + JavaDiv(sx, 8) as real, y + height);
      speed := sx as real;
      moving := Stopped;
    }

    function GetRect(): (r: Rect)
      reads this
      ensures r == State().rect
    {
      rect
    }

    method SetMovementState(state: Movement)
      modifies this
      ensures State() == WithMovement(old(State()), state)
    {
      moving := state;
    }

    method Update(fps: int)
      requires fps > 0
      modifies this
      ensures State() == Moved(old(State()), fps)
    {
      if moving == Left {
        x := x - speed / fps as real;
      }
      if moving == Right {
        x := x + speed / fps as real;
      }
      if x < 0.0 {
        x := 0.0;
      } else if x + length > screenX as real {
        x := screenX as real - length;
      }
      rect := rect.(left := x);
      rect := rect.(right := x + length);
    }
  }
}
