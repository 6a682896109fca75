/** The player's paddle (src/paddle.py). */
module Paddles {
  import opened Constants
  import opened Geometry

  /**
   * One discrete step of `move`: direction -1 is up, 1 is down, anything else
   * does nothing. The step is skipped when the paddle already touches the edge
   * it moves toward; it is not clamped, so it can end partly off the field.
   */
  function Moved(r: Rect, speed: real, direction: int): (s: Rect)
    ensures s.x == r.x && s.w == r.w && s.h == r.h
    ensures ((direction == -1 && r.Top() <= 0) || (direction == 1 && r.Bottom() >= WindowHeight) ||
             (direction != -1 && direction != 1)) ==> s == r
    ensures direction == -1 && r.Top() > 0 ==>
              r.y as real - speed - 1.0 < s.y as real < r.y as real - speed + 1.0
    ensures direction == 1 && r.Bottom() < WindowHeight ==>
              r.y as real + speed - 1.0 < s.y as real < r.y as real + speed + 1.0
    // with a whole-number speed the step is exact
    ensures speed == speed.Floor as real && direction == -1 && r.Top() > 0 ==> s.y == r.y - speed.Floor
    ensures speed == speed.Floor as real && direction == 1 && r.Bottom() < WindowHeight ==> s.y == r.y + speed.Floor
    // a step never goes the wrong way, and overshoots an edge by less than one step
    ensures 0.0 <= speed && direction == -1 ==> s.y <= r.y && (r.Top() > 0 ==> -speed < s.Top() as real)
    ensures 0.0 <= speed && direction == 1 ==>
              r.y <= s.y && (r.Bottom() < WindowHeight ==> (s.Bottom() as real) < WindowHeight as real + speed)
  {
    if direction == -1 && r.Top() > 0 then r.(y := Pixel(r.y as real - speed))
    else if direction == 1 && r.Bottom() < WindowHeight then r.(y := Pixel(r.y as real + speed))
    else r
  }

  /**
   * `set_position`: centre the paddle on `y`, then pull it back inside the field
   * (top edge first).
   */
  function Positioned(r: Rect, y: int): (p: Rect)
    ensures p.x == r.x && p.w == r.w && p.h == r.h
    ensures 0 <= r.h <= WindowHeight ==> 0 <= p.Top() && p.Bottom() <= WindowHeight
    // when the centred rectangle already fits, no clamp fires
    ensures 0 <= y - r.h / 2 && y - r.h / 2 + r.h <= WindowHeight ==> p.CenterY() == y
    ensures y - r.h / 2 < 0 ==> p.Top() == 0
    ensures 0 <= y - r.h / 2 && WindowHeight < y - r.h / 2 + r.h ==> p.Bottom() == WindowHeight
  {
    var centred := r.WithCenterY(y);
    if centred.Top() < 0 then centred.WithTop(0)
    else if centred.Bottom() > WindowHeight then centred.WithBottom(WindowHeight)
    else centred
  }

  /** The previous vertical position plays no part in `set_position`. */
  lemma PositionedIgnoresPreviousY(r: Rect, oldY: int, y: int)
    ensures Positioned(r.(y := oldY), y) == Positioned(r, y)
  {
  }

  /** Setting the same position twice is the same as setting it once. */
  lemma PositionedIdempotent(r: Rect, y: int)
    ensures Positioned(Positioned(r, y), y) == Positioned(r, y)
  {
    PositionedIgnoresPreviousY(r, Positioned(r, y).y, y);
  }

  class Paddle {
    var rect: Rect
    const baseSpeed: int
    var speedMultiplier: real
    var speed: real

    /** Size and base speed are fixed; the step size follows the multiplier. */
    ghost predicate Valid()
      reads this
    {
      rect.w == PaddleWidth && rect.h == PaddleHeight && baseSpeed == PaddleSpeed &&
      speed == baseSpeed as real * speedMultiplier
    }

    constructor (x: int, y: int, speedMultiplier: real)
      ensures Valid()
      ensures rect == Rect(x, y, PaddleWidth, PaddleHeight)
      ensures this.speedMultiplier == speedMultiplier
    {
      rect := Rect(x, y, PaddleWidth, PaddleHeight);
      baseSpeed := PaddleSpeed;
      this.speedMultiplier := speedMultiplier;
      speed := PaddleSpeed as real * speedMultiplier;
    }

    method UpdateSpeed(multiplier: real)
      requires Valid()
      modifies this`speedMultiplier, this`speed
      ensures Valid()
      ensures speedMultiplier == multiplier && speed == PaddleSpeed as real * multiplier
    {
      speedMultiplier := multiplier;
      speed := baseSpeed as real * speedMultiplier;
    }

    method Move(direction: int)
      requires Valid()
      modifies this`rect
      ensures Valid()
      ensures rect == Moved(old(rect), speed, direction)
    {
      if direction == -1 && rect.Top() > 0 {
        rect := rect.(y := Pixel(rect.y as real - speed));
      } else if direction == 1 && rect.Bottom() < WindowHeight {
        rect := rect.(y := Pixel(rect.y as real + speed));
      }
    }

    method SetPosition(y: int)
      requires Valid()
      modifies this`rect
      ensures Valid()
      ensures rect == Positioned(old(rect), y)
      ensures 0 <= rect.Top() && rect.Bottom() <= WindowHeight
      ensures 50 <= y <= 550 ==> rect.CenterY() == y
    {
      rect := rect.WithCenterY(y);
      if rect.Top() < 0 {
        rect := rect.WithTop(0);
      } else if rect.Bottom() > WindowHeight {
        rect := rect.WithBottom(WindowHeight);
      }
    }
  }
}
