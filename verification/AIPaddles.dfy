/** The computer-controlled paddle (src/ai_paddle.py). */
module AIPaddles {
  import opened Constants
  import opened Geometry
  import Paddles
  import Balls

  /** The three tunables a difficulty selects. */
  datatype Profile = Profile(imperfectionRange: int, reactionThreshold: int, speedFactor: real)

  /** `set_difficulty`'s table; any name other than "easy" or "medium" gets the hard profile. */
  function ProfileOf(difficulty: string): (p: Profile)
    ensures 0 < p.reactionThreshold <= p.imperfectionRange && 0.0 < p.speedFactor
    ensures difficulty != "easy" && difficulty != "medium" ==> p == Profile(5, 5, 1.2)
  {
    if difficulty == "easy" then Profile(40, 20, 0.7)
    else if difficulty == "medium" then Profile(20, 10, 1.0)
    else Profile(5, 5, 1.2)
  }

  /** A harder profile aims more precisely, reacts earlier and moves faster. */
  lemma HarderIsSharper()
    ensures ProfileOf("easy").imperfectionRange > ProfileOf("medium").imperfectionRange > ProfileOf("hard").imperfectionRange
    ensures ProfileOf("easy").reactionThreshold > ProfileOf("medium").reactionThreshold > ProfileOf("hard").reactionThreshold
    ensures ProfileOf("easy").speedFactor < ProfileOf("medium").speedFactor < ProfileOf("hard").speedFactor
  {
  }

  /**
   * Where the paddle heads: the ball's centre shifted by the noise drawn this
   * tick while the ball approaches (moves right), the middle of the field otherwise.
   */
  function Target(ballVelocityX: int, ballCenterY: int, noise: int): (t: int)
    ensures ballVelocityX <= 0 ==> t == WindowHeight / 2
    ensures 0 < ballVelocityX ==> t - noise == ballCenterY
  {
    if ballVelocityX > 0 then ballCenterY + noise else WindowHeight / 2
  }

  /**
   * One tick of tracking: a step down when the centre is more than `threshold`
   * above the target, a step up when it is more than `threshold` below it, and
   * no movement inside the dead zone. A step toward an edge the paddle already
   * touches is skipped, as in `move`.
   */
  function Tracked(r: Rect, speed: real, threshold: int, target: int): (s: Rect)
    requires 0 <= threshold
    ensures s.x == r.x && s.w == r.w && s.h == r.h
    ensures target - threshold <= r.CenterY() <= target + threshold ==> s == r
    ensures s == r || s == Paddles.Moved(r, speed, 1) || s == Paddles.Moved(r, speed, -1)
    ensures r.CenterY() < target - threshold ==> s == Paddles.Moved(r, speed, 1)
    ensures r.CenterY() > target + threshold ==> s == Paddles.Moved(r, speed, -1)
    // never moves away from the target
    ensures 0.0 <= speed && r.CenterY() < target - threshold ==> r.y <= s.y
    ensures 0.0 <= speed && r.CenterY() > target + threshold ==> s.y <= r.y
    // at most one step of size `speed`, give or take the pixel rounding
    ensures 0.0 <= speed ==> s.y == r.y || speed - 1.0 < Abs((s.y - r.y) as real) < speed + 1.0
    // no downward step from the bottom edge, no upward step from the top edge
    ensures r.Bottom() >= WindowHeight && r.CenterY() <= target + threshold ==> s == r
    ensures r.Top() <= 0 && r.CenterY() >= target - threshold ==> s == r
  {
    if r.CenterY() < target - threshold then
      (if r.Bottom() < WindowHeight then r.(y := Pixel(r.y as real + speed)) else r)
    else if r.CenterY() > target + threshold then
      (if r.Top() > 0 then r.(y := Pixel(r.y as real - speed)) else r)
    else r
  }

  class AIPaddle {
    var rect: Rect
    const baseSpeed: int
    var speedMultiplier: real
    var speed: real
    var difficulty: string
    var imperfectionRange: int
    var reactionThreshold: int
    var speedFactor: real

    function CurrentProfile(): Profile
      reads this
    {
      Profile(imperfectionRange, reactionThreshold, speedFactor)
    }

    /** Size and base speed are fixed; the profile always matches the difficulty name. */
    ghost predicate Valid()
      reads this
    {
      rect.w == PaddleWidth && rect.h == PaddleHeight && baseSpeed == PaddleSpeed &&
      CurrentProfile() == ProfileOf(difficulty)
    }

    /** The step size includes the profile's speed factor, as `update_speed` computes it. */
    ghost predicate SpeedDerived()
      reads this`speed, this`speedMultiplier, this`speedFactor
    {
      speed == baseSpeed as real * speedMultiplier * speedFactor
    }

    /** The speed is set before the profile, so it does not include the speed factor yet. */
    constructor (x: int, y: int, speedMultiplier: real, difficulty: string)
      ensures Valid()
      ensures rect == Rect(x, y, PaddleWidth, PaddleHeight)
      ensures this.speedMultiplier == speedMultiplier && this.difficulty == difficulty
      ensures speed == PaddleSpeed as real * speedMultiplier
    {
      rect := Rect(x, y, PaddleWidth, PaddleHeight);
      baseSpeed := PaddleSpeed;
      this.speedMultiplier := speedMultiplier;
      speed := PaddleSpeed as real * speedMultiplier;
      new;
      SetDifficulty(difficulty);
    }

    /** Replaces the profile only: the speed keeps its old value until `UpdateSpeed`. */
    method SetDifficulty(difficulty: string)
      modifies this`difficulty, this`imperfectionRange, this`reactionThreshold, this`speedFactor
      ensures this.difficulty == difficulty && CurrentProfile() == ProfileOf(difficulty)
    {
      this.difficulty := difficulty;
      if difficulty == "easy" {
        imperfectionRange := 40;
        reactionThreshold := 20;
        speedFactor := 0.7;
      } else if difficulty == "medium" {
        imperfectionRange := 20;
        reactionThreshold := 10;
        speedFactor := 1.0;
      } else {
        imperfectionRange := 5;
        reactionThreshold := 5;
        speedFactor := 1.2;
      }
    }

    method UpdateSpeed(multiplier: real)
      modifies this`speedMultiplier, this`speed
      ensures speedMultiplier == multiplier && SpeedDerived()
      ensures speed == baseSpeed as real * multiplier * speedFactor
    {
      speedMultiplier := multiplier;
      speed := baseSpeed as real * speedMultiplier * speedFactor;
    }

    /** `noise` is the value `randint(-imperfection_range, imperfection_range)` draws. */
    method Update(ball: Balls.Ball, noise: int)
      requires Valid()
      requires ball.velocityX > 0 ==> -imperfectionRange <= noise <= imperfectionRange
      modifies this`rect
      ensures Valid()
      ensures rect == Tracked(old(rect), speed, reactionThreshold, Target(ball.velocityX, ball.rect.CenterY(), noise))
    {
      if ball.velocityX > 0 {
        var targetY := ball.rect.CenterY();
        targetY := targetY + noise;
        if rect.CenterY() < targetY - reactionThreshold {
          if rect.Bottom() < WindowHeight {
            rect := rect.(y := Pixel(rect.y as real + speed));
          }
        } else if rect.CenterY() > targetY + reactionThreshold {
          if rect.Top() > 0 {
            rect := rect.(y := Pixel(rect.y as real - speed));
          }
        }
      } else {
        var centerY := WindowHeight / 2;
        if rect.CenterY() < centerY - reactionThreshold {
          if rect.Bottom() < WindowHeight {
            rect := rect.(y := Pixel(rect.y as real + speed));
          }
        } else if rect.CenterY() > centerY + reactionThreshold {
          if rect.Top() > 0 {
            rect := rect.(y := Pixel(rect.y as real - speed));
          }
        }
      }
    }
  }
}
