/** The ball (src/ball.py): motion, wall bounce, paddle collision with spin, scoring test. */
module Balls {
  import opened Constants
  import opened Geometry

  /** What the ball's methods change: its rectangle and its velocity. */
  datatype Motion = Motion(rect: Rect, vx: int, vy: real)

  /** The rectangle `reset` places at the middle of the field. */
  function CentreRect(): Rect {
    Rect(WindowWidth / 2 - BallSize / 2, WindowHeight / 2 - BallSize / 2, BallSize, BallSize)
  }

  /**
   * `reset`: back to the centre, moving diagonally with both components of
   * magnitude int(BALL_SPEED * multiplier); the two signs are drawn independently.
   */
  function Served(multiplier: real, signX: int, signY: int): (m: Motion)
    requires signX == -1 || signX == 1
    requires signY == -1 || signY == 1
    ensures m.rect == CentreRect()
    ensures 0.0 <= multiplier ==>
              Abs(m.vx as real) == Abs(m.vy) == Trunc(BallSpeed as real * multiplier) as real
    ensures 0.0 <= multiplier ==> (if signX == 1 then 0 <= m.vx else m.vx <= 0)
    ensures 0.0 <= multiplier ==> (if signY == 1 then 0.0 <= m.vy else m.vy <= 0.0)
  {
    // int(base * sign) == sign * int(base), see SignedTrunc
    var magnitude := Trunc(BallSpeed as real * multiplier);
    Motion(CentreRect(), if signX == 1 then magnitude else -magnitude,
           (if signY == 1 then magnitude else -magnitude) as real)
  }

  /** Drawing a sign and then truncating is truncating and then applying the sign. */
  lemma SignedTrunc(v: real, sign: int)
    requires sign == -1 || sign == 1
    ensures Trunc(v * sign as real) == sign * Trunc(v)
  {
    if sign == -1 {
      assert v * sign as real == -v;
      TruncNegate(v);
    } else {
      assert v * sign as real == v;
    }
  }

  /**
   * `update`: move by the velocity, then reflect the vertical velocity when the
   * moved ball touches or passes the top or bottom wall. The reflection is
   * elastic: the vertical speed keeps its size.
   */
  function Advanced(m: Motion): (r: Motion)
    ensures r.vx == m.vx
    ensures r.rect.x == m.rect.x + m.vx && r.rect.w == m.rect.w && r.rect.h == m.rect.h
    ensures m.rect.y as real + m.vy - 1.0 < r.rect.y as real < m.rect.y as real + m.vy + 1.0
    ensures r.rect.Top() <= 0 || r.rect.Bottom() >= WindowHeight ==> r.vy == -m.vy
    ensures 0 < r.rect.Top() && r.rect.Bottom() < WindowHeight ==> r.vy == m.vy
    ensures Abs(r.vy) == Abs(m.vy)
  {
    var moved := m.rect.(x := m.rect.x + m.vx, y := Pixel(m.rect.y as real + m.vy));
    if moved.Top() <= 0 || moved.Bottom() >= WindowHeight then Motion(moved, m.vx, -m.vy)
    else Motion(moved, m.vx, m.vy)
  }

  /** The spin added on a paddle hit: twice the offset from the paddle centre, in half-heights. */
  function Spin(ball: Rect, paddle: Rect): real {
    2.0 * ((ball.CenterY() - paddle.CenterY()) as real / (PaddleHeight / 2) as real)
  }

  /**
   * `check_collision`: on overlap, reverse the horizontal velocity, add spin,
   * cap the vertical speed at 2 * BALL_SPEED * multiplier, keeping its sign, and
   * snap the ball flush against the paddle, on the side its new horizontal
   * velocity points to. The flag says whether it hit.
   */
  function Collided(m: Motion, multiplier: real, paddle: Rect): (r: (Motion, bool))
    ensures !m.rect.CollideRect(paddle) ==> r == (m, false)
    ensures m.rect.CollideRect(paddle) ==>
              r.1 && r.0.vx == -m.vx &&
              r.0.rect.y == m.rect.y && r.0.rect.w == m.rect.w && r.0.rect.h == m.rect.h
    ensures m.rect.CollideRect(paddle) ==>
              if 0 < r.0.vx then r.0.rect.Left() == paddle.Right() else r.0.rect.Right() == paddle.Left()
    // flush against the paddle, the ball no longer overlaps it
    ensures m.rect.CollideRect(paddle) ==> !r.0.rect.CollideRect(paddle)
  {
    if m.rect.CollideRect(paddle) then
      var vx := -m.vx;
      var spun := m.vy + Spin(m.rect, paddle);
      var maxVelocity := BallSpeed as real * multiplier * 2.0;
      var vy := if Abs(spun) > maxVelocity then Trunc(maxVelocity * (if spun > 0.0 then 1.0 else -1.0)) as real
                else spun;
      var rect := if vx > 0 then m.rect.WithLeft(paddle.Right()) else m.rect.WithRight(paddle.Left());
      (Motion(rect, vx, vy), true)
    else
      (m, false)
  }

  /**
   * The vertical velocity after a hit: the spin is added exactly unless the sum
   * exceeds the cap 2 * BALL_SPEED * multiplier; then it becomes int(cap) with
   * the sign of the sum. Either way it stays within the cap.
   */
  lemma CollidedCapsSpin(m: Motion, multiplier: real, paddle: Rect)
    requires m.rect.CollideRect(paddle)
    ensures var vy := Collided(m, multiplier, paddle).0.vy;
            var spun := m.vy + Spin(m.rect, paddle);
            var cap := 2.0 * BallSpeed as real * multiplier;
            && (0.0 <= multiplier ==> Abs(vy) <= cap)
            && (Abs(spun) <= cap ==> vy == spun)
            && (Abs(spun) > cap ==> vy == if spun > 0.0 then Trunc(cap) as real else -(Trunc(cap) as real))
  {
    var cap := 2.0 * BallSpeed as real * multiplier;
    assert BallSpeed as real * multiplier * 2.0 == cap;
    TruncNegate(cap);
    assert cap * -1.0 == -cap;
  }

  /**
   * The velocity part of `update_speed`. A zero velocity is left alone; otherwise
   * both components are multiplied by `scale` (positive: the new speed divided by
   * the current one) and truncated by int().
   */
  function Rescaled(m: Motion, scale: real): (r: Motion)
    requires 0.0 < scale
    ensures r.rect == m.rect
    ensures m.vx == 0 && m.vy == 0.0 ==> r == m
    ensures r.vy == r.vy.Floor as real
  {
    if m.vx != 0 || m.vy != 0.0 then
      Motion(m.rect, Trunc(m.vx as real * scale), Trunc(m.vy * scale) as real)
    else m
  }

  /** Rescaling keeps the sign of each velocity component or turns it into 0. */
  lemma RescaledKeepsSigns(m: Motion, scale: real)
    requires 0.0 < scale
    ensures var r := Rescaled(m, scale);
            && (r.vx == 0 || (0 < r.vx <==> 0 < m.vx))
            && (r.vy == 0.0 || (0.0 < r.vy <==> 0.0 < m.vy))
            && (m.vx == 0 ==> r.vx == 0)
            && (m.vy == 0.0 ==> r.vy == 0.0)
  {
    if m.vx != 0 || m.vy != 0.0 {
      ScaledSign(m.vx as real, scale);
      ScaledSign(m.vy, scale);
    }
  }

  /** int(v * scale) for a positive scale keeps the sign of v or is 0. */
  lemma ScaledSign(v: real, scale: real)
    requires 0.0 < scale
    ensures 0.0 < v ==> 0 <= Trunc(v * scale)
    ensures v < 0.0 ==> Trunc(v * scale) <= 0
    ensures v == 0.0 ==> Trunc(v * scale) == 0
  {
    if 0.0 < v {
      assert 0.0 < v * scale;
    } else if v < 0.0 {
      assert v * scale < 0.0;
    }
  }

  /** `is_out_of_bounds`: the ball has left the field completely on the left or on the right. */
  predicate OutOfBounds(r: Rect)
    ensures OutOfBounds(r) && 0 <= r.w ==> (r.Right() < 0 <==> !(r.Left() > WindowWidth))
    ensures OutOfBounds(r) ==> !r.CollideRect(Rect(0, 0, WindowWidth, WindowHeight))
  {
    r.Right() < 0 || r.Left() > WindowWidth
  }

  class Ball {
    var rect: Rect
    var velocityX: int
    var velocityY: real
    var speedMultiplier: real

    function State(): Motion
      reads this`rect, this`velocityX, this`velocityY
    {
      Motion(rect, velocityX, velocityY)
    }

    /** The ball is always a BALL_SIZE square. */
    ghost predicate Valid()
      reads this
    {
      rect.w == BallSize && rect.h == BallSize
    }

    constructor (speedMultiplier: real, signX: int, signY: int)
      requires signX == -1 || signX == 1
      requires signY == -1 || signY == 1
      ensures Valid()
      ensures this.speedMultiplier == speedMultiplier
      ensures State() == Served(speedMultiplier, signX, signY)
    {
      this.speedMultiplier := speedMultiplier;
      var base := BallSpeed as real * speedMultiplier;
      rect := CentreRect();
      SignedTrunc(base, signX);
      SignedTrunc(base, signY);
      velocityX := Trunc(base * signX as real);
      velocityY := Trunc(base * signY as real) as real;
    }

    /** The magnitude is not modelled: `scale` stands for BALL_SPEED * multiplier / |velocity|. */
    method UpdateSpeed(multiplier: real, scale: real)
      requires 0.0 < scale
      modifies this`speedMultiplier, this`velocityX, this`velocityY
      ensures speedMultiplier == multiplier
      ensures State() == Rescaled(old(State()), scale)
    {
      speedMultiplier := multiplier;
      var next := Rescaled(State(), scale);
      velocityX, velocityY := next.vx, next.vy;
    }

    method Reset(signX: int, signY: int)
      requires signX == -1 || signX == 1
      requires signY == -1 || signY == 1
      modifies this`rect, this`velocityX, this`velocityY
      ensures Valid()
      ensures State() == Served(speedMultiplier, signX, signY)
    {
      rect := CentreRect();
      var base := BallSpeed as real * speedMultiplier;
      SignedTrunc(base, signX);
      SignedTrunc(base, signY);
      velocityX := Trunc(base * signX as real);
      velocityY := Trunc(base * signY as real) as real;
    }

    method Update()
      requires Valid()
      modifies this`rect, this`velocityY
      ensures Valid()
      ensures State() == Advanced(old(State()))
    {
      rect := rect.(x := rect.x + velocityX);
      rect := rect.(y := Pixel(rect.y as real + velocityY));
      if rect.Top() <= 0 || rect.Bottom() >= WindowHeight {
        velocityY := -velocityY;
      }
    }

    method CheckCollision(paddle: Rect) returns (hit: bool)
      requires Valid()
      modifies this`rect, this`velocityX, this`velocityY
      ensures Valid()
      ensures (State(), hit) == Collided(old(State()), speedMultiplier, paddle)
    {
      if rect.CollideRect(paddle) {
        velocityX := -velocityX;
        var hitPos := (rect.CenterY() - paddle.CenterY()) as real / (PaddleHeight / 2) as real;
        velocityY := velocityY + hitPos * 2.0;
        var maxVelocity := BallSpeed as real * speedMultiplier * 2.0;
        if Abs(velocityY) > maxVelocity {
          velocityY := Trunc(maxVelocity * (if velocityY > 0.0 then 1.0 else -1.0)) as real;
        }
        if velocityX > 0 {
          rect := rect.WithLeft(paddle.Right());
        } else {
          rect := rect.WithRight(paddle.Left());
        }
        return true;
      }
      return false;
    }

    function IsOutOfBounds(): (b: bool)
      reads this
      ensures b == OutOfBounds(rect)
    {
      OutOfBounds(rect)
    }
  }
}
