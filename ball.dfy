/** The ball: a square rectangle with a signed velocity in pixels per second. */
module Balls {
  import opened Geometry

  /** Abstract value of a ball: its rectangle, its velocity and its fixed size. */
  datatype BallState = BallState(rect: Rect, xVelocity: real, yVelocity: real, width: real, height: real)

  /** The rectangle spans exactly the ball's width and height from its top-left corner. */
  predicate Placed(b: BallState)
  {
    b.rect.right == b.rect.left + b.width && b.rect.bottom == b.rect.top + b.height
  }

  /** A freshly constructed ball: side screenX / 100, an empty rectangle, no velocity. */
  function Initial(screenX: int): (b: BallState)
    ensures b.width == b.height && b.width == b.width.Floor as real
    ensures b.width == JavaDiv(screenX, 100) as real
    ensures screenX >= 0 ==> 0.0 <= b.width && b.width * 100.0 <= screenX as real < b.width * 100.0 + 100.0
    ensures b.rect == Rect(0.0, 0.0, 0.0, 0.0) && b.xVelocity == 0.0 && b.yVelocity == 0.0
  {
    var side := JavaDiv(screenX, 100) as real;
    BallState(Rect(0.0, 0.0, 0.0, 0.0), 0.0, 0.0, side, side)
  }

  /** The vertical velocity negated; nothing else changes. */
  function ReversedY(b: BallState): (r: BallState)
    ensures r.yVelocity == -b.yVelocity && r.(yVelocity := b.yVelocity) == b
  {
    b.(yVelocity := -b.yVelocity)
  }

  /** The horizontal velocity negated; nothing else changes. */
  function ReversedX(b: BallState): (r: BallState)
    ensures r.xVelocity == -b.xVelocity && r.(xVelocity := b.xVelocity) == b
  {
    b.(xVelocity := -b.xVelocity)
  }

  /** One frame of movement at the given frame rate. */
  function Moved(b: BallState, fps: int): (r: BallState)
    requires fps > 0
    ensures Placed(r)
    ensures r.rect.left - b.rect.left == b.xVelocity / fps as real
    ensures r.rect.top - b.rect.top == b.yVelocity / fps as real
    ensures r.xVelocity == b.xVelocity && r.yVelocity == b.yVelocity
    ensures r.width == b.width && r.height == b.height
  {
    var left := b.rect.left + b.xVelocity / fps as real;
    var top := b.rect.top + b.yVelocity / fps as real;
    b.(rect := Rect(left, top, left + b.width, top + b.height))
  }

  /** The serve: horizontally centred at the top, moving right at x / 2 and up at y / 3. */
  function Served(b: BallState, x: int, y: int): (r: BallState)
    ensures Placed(r) && r.rect.top == 0.0
    ensures r.rect.left == r.xVelocity == JavaDiv(x, 2) as real
    ensures r.yVelocity == -(JavaDiv(y, 3) as real)
    ensures x >= 0 && y >= 0 ==> r.xVelocity >= 0.0 && r.yVelocity <= 0.0
    ensures r.width == b.width && r.height == b.height
  {
    var half := JavaDiv(x, 2) as real;
    b.(rect := Rect(half, 0.0, half + b.width, b.height),
       yVelocity := -(JavaDiv(y, 3) as real),
       xVelocity := half)
  }

  /** Speed-up after a paddle hit: both components times 1.1. */
  function Faster(b: BallState): (r: BallState)
    ensures r.rect == b.rect && r.width == b.width && r.height == b.height
    ensures (r.xVelocity > 0.0 <==> b.xVelocity > 0.0) && (r.xVelocity < 0.0 <==> b.xVelocity < 0.0)
    ensures (r.yVelocity > 0.0 <==> b.yVelocity > 0.0) && (r.yVelocity < 0.0 <==> b.yVelocity < 0.0)
    ensures Abs(r.xVelocity) >= Abs(b.xVelocity) && Abs(r.yVelocity) >= Abs(b.yVelocity)
    ensures Abs(r.xVelocity) == 1.1 * Abs(b.xVelocity) && Abs(r.yVelocity) == 1.1 * Abs(b.yVelocity)
  {
    b.(xVelocity := b.xVelocity * 1.1, yVelocity := b.yVelocity * 1.1)
  }

  /** The horizontal centre the bounce compares: left edge plus half the ball's width. */
  function CentreX(b: BallState): real
  {
    b.rect.left + b.width / 2.0
  }

  /** Bounce off a paddle or obstacle: the ball heads away from the target's centre
      horizontally (leftward on a tie) and its vertical direction flips. */
  function Bounced(b: BallState, target: Rect): (r: BallState)
    ensures r.rect == b.rect && r.width == b.width && r.height == b.height
    ensures r.yVelocity == -b.yVelocity
    ensures Abs(r.xVelocity) == Abs(b.xVelocity)
    ensures CentreX(b) > target.CentreX() ==> r.xVelocity >= 0.0
    ensures CentreX(b) <= target.CentreX() ==> r.xVelocity <= 0.0
    ensures r.xVelocity > 0.0 ==> CentreX(b) > target.CentreX()
  {
    var relativeIntersect := target.CentreX() - CentreX(b);
    var vx := if relativeIntersect < 0.0 then Abs(b.xVelocity) else -Abs(b.xVelocity);
    b.(xVelocity := vx, yVelocity := -b.yVelocity)
  }

  lemma ReverseXInvolution(b: BallState)
    ensures ReversedX(b).rect == b.rect && ReversedX(b).yVelocity == b.yVelocity
    ensures ReversedX(b).xVelocity == -b.xVelocity
    ensures ReversedX(ReversedX(b)) == b
  {
  }

  lemma ReverseYInvolution(b: BallState)
    ensures ReversedY(b).rect == b.rect && ReversedY(b).xVelocity == b.xVelocity
    ensures ReversedY(b).yVelocity == -b.yVelocity
    ensures ReversedY(ReversedY(b)) == b
  {
  }

  /** Serving twice in a row places the ball exactly as serving once. */
  lemma ResetIdempotent(b: BallState, x: int, y: int)
    ensures Served(Served(b, x, y), x, y) == Served(b, x, y)
  {
  }

  /** A placed ball that moves one frame, has both components reversed and moves
      one more frame at the same rate returns to where it was. */
  lemma MoveIsReversible(b: BallState, fps: int)
    requires fps > 0 && Placed(b)
    ensures Moved(ReversedX(ReversedY(Moved(b, fps))), fps).rect == b.rect
  {
  }

  /** Bouncing twice off the same target keeps the horizontal direction chosen by
      the first bounce and restores the vertical velocity. */
  lemma BounceTwice(b: BallState, target: Rect)
    ensures Bounced(Bounced(b, target), target) == b.(xVelocity := Bounced(b, target).xVelocity)
  {
  }

  /** The mutable ball object. */
  class Ball {
    var rect: Rect
    var xVelocity: real
    var yVelocity: real
    const width: real
    const height: real

    function State(): BallState
      reads this
    {
      BallState(rect, xVelocity, yVelocity, width, height)
    }

    constructor (screenX: int)
      ensures State() == Initial(screenX)
    {
      width := JavaDiv(screenX, 100) as real;
      height := JavaDiv(screenX, 100) as real;
      rect := Rect(0.0, 0.0, 0.0, 0.0);
      xVelocity, yVelocity := 0.0, 0.0;
    }

    method ReverseYVelocity()
      modifies this
      ensures State() == ReversedY(old(State()))
    {
      yVelocity := -yVelocity;
    }

    method ReverseXVelocity()
      modifies this
      ensures State() == ReversedX(old(State()))
    {
      xVelocity := -xVelocity;
    }

    method Update(fps: int)
      requires fps > 0
      modifies this
      ensures State() == Moved(old(State()), fps)
    {
      rect := rect.(left := rect.left + xVelocity / fps as real);
      rect := rect.(top := rect.top + yVelocity / fps as real);
      rect := rect.(right := rect.left + width);
      rect := rect.(bottom := rect.top + height);
    }

    method Reset(x: int, y: int)
      modifies this
      ensures State() == Served(old(State()), x, y)
    {
      rect := rect.(left := JavaDiv(x, 2) as real);
      rect := rect.(top := 0.0);
      rect := rect.(right := JavaDiv(x, 2) as real + width);
      rect := rect.(bottom := height);
      yVelocity := -(JavaDiv(y, 3) as real);
      xVelocity := JavaDiv(x, 2) as real;
    }

    method IncreaseVelocity()
      modifies this
      ensures State() == Faster(old(State()))
    {
      xVelocity := xVelocity * 1.1;
      yVelocity := yVelocity * 1.1;
    }

    method BatBounce(batPosition: Rect)
      modifies this
      ensures State() == Bounced(old(State()), batPosition)
    {
      var batCentre := batPosition.left + batPosition.Width() / 2.0;
      var ballCentre := rect.left + width / 2.0;
      var relativeIntersect := batCentre - ballCentre;
      if relativeIntersect < 0.0 {
        xVelocity := Abs(xVelocity);
      } else {
        xVelocity := -Abs(xVelocity);
      }
      ReverseYVelocity();
    }
  }
}
