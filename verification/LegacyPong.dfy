/**
 * The single-file version of the game (pong.py): the same entities with fixed
 * speeds, keyboard steps besides the pointer, and a pause toggle.
 */
module LegacyPong {
  import opened Constants
  import opened Geometry
  import opened Input
  import Paddles
  import AIPaddles
  import Balls
  import Games

  /** The AI's fixed noise range and dead-zone half-width. */
  const NoiseRange: int := 20
  const ReactionThreshold: int := 10

  /** The loop flags the keys act on. */
  datatype Controls = Controls(paused: bool, running: bool)

  /** Space and P toggle the pause. */
  predicate IsToggle(e: Event) {
    e == KeyDown(Space) || e == KeyDown(P)
  }

  /** Escape and a quit event end the loop. */
  predicate IsExit(e: Event) {
    e == Quit || e == KeyDown(Escape)
  }

  /** One event of the main loop. */
  function Dispatch(c: Controls, e: Event): (r: Controls)
    ensures r.paused <==> (c.paused != IsToggle(e))
    ensures r.running <==> c.running && !IsExit(e)
  {
    match e
    case Quit => c.(running := false)
    case KeyDown(k) =>
      if k == Escape then c.(running := false)
      else if k == Space || k == P then c.(paused := !c.paused)
      else c
    case OtherEvent => c
  }

  /** The events of one frame, handled in order. */
  function DispatchAll(c: Controls, events: seq<Event>): (r: Controls)
    ensures r.running ==> c.running
  {
    if events == [] then c
    else Dispatch(DispatchAll(c, events[..|events| - 1]), events[|events| - 1])
  }

  /** How many pause toggles a sequence of events holds. */
  function Toggles(events: seq<Event>): nat {
    if events == [] then 0
    else Toggles(events[..|events| - 1]) + (if IsToggle(events[|events| - 1]) then 1 else 0)
  }

  /** The pause flag flips once per toggle, so an even number of toggles restores it. */
  lemma {:induction false} PausedParity(c: Controls, events: seq<Event>)
    ensures DispatchAll(c, events).paused <==> (c.paused != (Toggles(events) % 2 == 1))
  {
    if events != [] {
      PausedParity(c, events[..|events| - 1]);
    }
  }

  /** Two toggle presses leave both flags as they were. */
  lemma TwoTogglesRestore(c: Controls, e1: Event, e2: Event)
    requires IsToggle(e1) && IsToggle(e2)
    ensures DispatchAll(c, [e1, e2]) == c
  {
    assert [e1, e2][..1] == [e1];
    assert [e1][..0] == [];
    assert DispatchAll(c, [e1]) == Dispatch(c, e1);
  }

  /** The loop keeps running exactly as long as no exit event has arrived. */
  lemma {:induction false} RunningUntilExit(c: Controls, events: seq<Event>)
    ensures DispatchAll(c, events).running <==> c.running && forall i :: 0 <= i < |events| ==> !IsExit(events[i])
  {
    if events != [] {
      var init := events[..|events| - 1];
      RunningUntilExit(c, init);
      assert forall i :: 0 <= i < |init| ==> init[i] == events[i];
    }
  }

  /**
   * `handle_input` on the player's rectangle: centre on the pointer, then one up
   * step if W or Up is held and one down step if S or Down is held.
   */
  function Steered(r: Rect, mouseY: int, upHeld: bool, downHeld: bool): (s: Rect)
    ensures s.x == r.x && s.w == r.w && s.h == r.h
    ensures !upHeld && !downHeld ==> s == Paddles.Positioned(r, mouseY)
    // the held keys move the placed paddle by at most one step
    ensures var p := Paddles.Positioned(r, mouseY); p.y - PaddleSpeed <= s.y <= p.y + PaddleSpeed
    // and it ends less than one step outside the field
    ensures 0 <= r.h <= WindowHeight ==> -PaddleSpeed < s.Top() && s.Bottom() < WindowHeight + PaddleSpeed
  {
    var placed := Paddles.Positioned(r, mouseY);
    var raised := if upHeld then Paddles.Moved(placed, PaddleSpeed as real, -1) else placed;
    if downHeld then Paddles.Moved(raised, PaddleSpeed as real, 1) else raised
  }

  class Paddle {
    var rect: Rect
    const speed: int

    ghost predicate Valid()
      reads this
    {
      rect.w == PaddleWidth && rect.h == PaddleHeight && speed == PaddleSpeed
    }

    constructor (x: int, y: int)
      ensures Valid() && rect == Rect(x, y, PaddleWidth, PaddleHeight)
    {
      rect := Rect(x, y, PaddleWidth, PaddleHeight);
      speed := PaddleSpeed;
    }

    method Move(direction: int)
      requires Valid()
      modifies this`rect
      ensures Valid()
      ensures rect == Paddles.Moved(old(rect), speed as real, direction)
      ensures direction == -1 && old(rect).Top() > 0 ==> rect.y == old(rect).y - PaddleSpeed
      ensures direction == 1 && old(rect).Bottom() < WindowHeight ==> rect.y == old(rect).y + PaddleSpeed
    {
      if direction == -1 && rect.Top() > 0 {
        rect := rect.(y := rect.y - speed);
      } else if direction == 1 && rect.Bottom() < WindowHeight {
        rect := rect.(y := rect.y + speed);
      }
    }

    method SetPosition(y: int)
      requires Valid()
      modifies this`rect
      ensures Valid()
      ensures rect == Paddles.Positioned(old(rect), y)
      ensures 0 <= rect.Top() && rect.Bottom() <= WindowHeight
    {
      rect := rect.WithCenterY(y);
      if rect.Top() < 0 {
        rect := rect.WithTop(0);
      } else if rect.Bottom() > WindowHeight {
        rect := rect.WithBottom(WindowHeight);
      }
    }
  }

  class Ball {
    var rect: Rect
    var velocityX: int
    var velocityY: real

    function State(): Balls.Motion
      reads this
    {
      Balls.Motion(rect, velocityX, velocityY)
    }

    ghost predicate Valid()
      reads this
    {
      rect.w == BallSize && rect.h == BallSize
    }

    constructor (signX: int, signY: int)
      requires signX == -1 || signX == 1
      requires signY == -1 || signY == 1
      ensures Valid() && State() == Balls.Served(1.0, signX, signY)
    {
      rect := Balls.CentreRect();
      velocityX := BallSpeed * signX;
      velocityY := (BallSpeed * signY) as real;
    }

    /** A serve at the base speed: each component is BALL_SPEED or its negation. */
    method Reset(signX: int, signY: int)
      requires signX == -1 || signX == 1
      requires signY == -1 || signY == 1
      modifies this`rect, this`velocityX, this`velocityY
      ensures Valid() && State() == Balls.Served(1.0, signX, signY)
      ensures velocityX == BallSpeed * signX && velocityY == (BallSpeed * signY) as real
    {
      rect := Balls.CentreRect();
      velocityX := BallSpeed * signX;
      velocityY := (BallSpeed * signY) as real;
    }

    method Update()
      requires Valid()
      modifies this`rect, this`velocityY
      ensures Valid() && State() == Balls.Advanced(old(State()))
    {
      rect := rect.(x := rect.x + velocityX);
      rect := rect.(y := Pixel(rect.y as real + velocityY));
      if rect.Top() <= 0 || rect.Bottom() >= WindowHeight {
        velocityY := -velocityY;
      }
    }

    /** The cap is the fixed 2 * BALL_SPEED: the general collision at multiplier 1. */
    method CheckCollision(paddle: Rect) returns (hit: bool)
      requires Valid()
      modifies this`rect, this`velocityX, this`velocityY
      ensures Valid() && (State(), hit) == Balls.Collided(old(State()), 1.0, paddle)
    {
      if rect.CollideRect(paddle) {
        velocityX := -velocityX;
        var hitPos := (rect.CenterY() - paddle.CenterY()) as real / (PaddleHeight / 2) as real;
        velocityY := velocityY + hitPos * 2.0;
        if Abs(velocityY) > (BallSpeed * 2) as real {
          velocityY := (BallSpeed * 2 * (if velocityY > 0.0 then 1 else -1)) as real;
        }
        if velocityX > 0 {
          rect := rect.WithLeft(paddle.Right());
        } else {
          rect := rect.WithRight(paddle.Left());
        }
        return true;
      }
      return false;
    }

    function IsOutOfBounds(): (b: bool)
      reads this
      ensures b == Balls.OutOfBounds(rect)
    {
      Balls.OutOfBounds(rect)
    }
  }

  class AIPaddle {
    var rect: Rect
    const speed: int
    /** Declared by the source but never read. */
    const reactionDelay: real

    ghost predicate Valid()
      reads this
    {
      rect.w == PaddleWidth && rect.h == PaddleHeight && speed == PaddleSpeed
    }

    constructor (x: int, y: int)
      ensures Valid() && rect == Rect(x, y, PaddleWidth, PaddleHeight)
      ensures reactionDelay == 0.3
    {
      rect := Rect(x, y, PaddleWidth, PaddleHeight);
      speed := PaddleSpeed;
      reactionDelay := 0.3;
    }

    /** `noise` is the value `randint(-20, 20)` draws. */
    method Update(ball: Ball, noise: int)
      requires Valid()
      requires ball.velocityX > 0 ==> -NoiseRange <= noise <= NoiseRange
      modifies this`rect
      ensures Valid()
      ensures rect == AIPaddles.Tracked(old(rect), speed as real, ReactionThreshold,
                                        AIPaddles.Target(ball.velocityX, ball.rect.CenterY(), noise))
    {
      if ball.velocityX > 0 {
        var targetY := ball.rect.CenterY();
        targetY := targetY + noise;
        if rect.CenterY() < targetY - 10 {
          if rect.Bottom() < WindowHeight {
            rect := rect.(y := rect.y + speed);
          }
        } else if rect.CenterY() > targetY + 10 {
          if rect.Top() > 0 {
            rect := rect.(y := rect.y - speed);
          }
        }
      } else {
        var centerY := WindowHeight / 2;
        if rect.CenterY() < centerY - 10 {
          if rect.Bottom() < WindowHeight {
            rect := rect.(y := rect.y + speed);
          }
        } else if rect.CenterY() > centerY + 10 {
          if rect.Top() > 0 {
            rect := rect.(y := rect.y - speed);
          }
        }
      }
    }
  }

  class Game {
    const player: Paddle
    const ai: AIPaddle
    const ball: Ball
    var playerScore: nat
    var aiScore: nat
    var paused: bool

    ghost predicate Valid()
      reads this, player, ai, ball
    {
      player.Valid() && ai.Valid() && ball.Valid() &&
      player.rect.x == 50 && ai.rect.x == WindowWidth - 50 - PaddleWidth
    }

    constructor (signX: int, signY: int)
      requires signX == -1 || signX == 1
      requires signY == -1 || signY == 1
      ensures Valid() && fresh(player) && fresh(ai) && fresh(ball)
      ensures playerScore == 0 && aiScore == 0 && !paused
      ensures player.rect == Rect(50, WindowHeight / 2 - PaddleHeight / 2, PaddleWidth, PaddleHeight)
      ensures ai.rect == Rect(WindowWidth - 50 - PaddleWidth, WindowHeight / 2 - PaddleHeight / 2, PaddleWidth, PaddleHeight)
      ensures ball.State() == Balls.Served(1.0, signX, signY)
    {
      player := new Paddle(50, WindowHeight / 2 - PaddleHeight / 2);
      ai := new AIPaddle(WindowWidth - 50 - PaddleWidth, WindowHeight / 2 - PaddleHeight / 2);
      ball := new Ball(signX, signY);
      playerScore := 0;
      aiScore := 0;
      paused := false;
    }

    /**
     * Pointer-follow, then the held keys: `upHeld` is W or Up, `downHeld` is S
     * or Down. Both steps apply when both are held. Nothing moves while paused.
     */
    method HandleInput(mouseY: int, upHeld: bool, downHeld: bool)
      requires Valid()
      modifies player`rect
      ensures Valid()
      ensures paused ==> player.rect == old(player.rect)
      ensures !paused ==> player.rect == Steered(old(player.rect), mouseY, upHeld, downHeld)
    {
      if !paused {
        player.SetPosition(mouseY);
        if upHeld {
          player.Move(-1);
        }
        if downHeld {
          player.Move(1);
        }
      }
    }

    /** One tick, as in the modular version but at the base speed. */
    method Update(noise: int, signX: int, signY: int)
      requires Valid()
      requires 0 < ball.velocityX ==> -NoiseRange <= noise <= NoiseRange
      requires signX == -1 || signX == 1
      requires signY == -1 || signY == 1
      modifies this`playerScore, this`aiScore, ai`rect, ball`rect, ball`velocityX, ball`velocityY
      ensures Valid()
      ensures Games.Outcome(ai.rect, ball.State(), playerScore, aiScore) ==
              Games.Ticked(old(ball.State()), 1.0, player.rect, old(ai.rect), PaddleSpeed as real, ReactionThreshold,
                           old(playerScore), old(aiScore), noise, signX, signY)
      ensures old(playerScore) <= playerScore && old(aiScore) <= aiScore
    {
      ball.Update();
      ghost var moved := ball.State();
      ai.Update(ball, noise);
      var _ := ball.CheckCollision(player.rect);
      ghost var afterPlayer := ball.State();
      assert afterPlayer == Balls.Collided(moved, 1.0, player.rect).0;
      var _ := ball.CheckCollision(ai.rect);
      if ball.IsOutOfBounds() {
        if ball.rect.Right() < 0 {
          aiScore := aiScore + 1;
        } else {
          playerScore := playerScore + 1;
        }
        ball.Reset(signX, signY);
      }
    }

    /**
     * One pass of the main loop: the events (Escape or quit clear the returned
     * `running` flag, Space or P toggle the pause), then input, then a tick
     * unless paused. The loop body finishes its frame even after an exit event.
     */
    method Frame(events: seq<Event>, mouseY: int, upHeld: bool, downHeld: bool, noise: int, signX: int, signY: int)
      returns (running: bool)
      requires Valid()
      requires 0 < ball.velocityX ==> -NoiseRange <= noise <= NoiseRange
      requires signX == -1 || signX == 1
      requires signY == -1 || signY == 1
      modifies this, player, ai, ball
      ensures Valid()
      ensures Controls(paused, running) == DispatchAll(Controls(old(paused), true), events)
      ensures paused ==>
                player.rect == old(player.rect) && ai.rect == old(ai.rect) && ball.State() == old(ball.State()) &&
                playerScore == old(playerScore) && aiScore == old(aiScore)
      // an unpaused frame steers the player's paddle and then ticks once
      ensures !paused ==>
                player.rect == Steered(old(player.rect), mouseY, upHeld, downHeld) &&
                Games.Outcome(ai.rect, ball.State(), playerScore, aiScore) ==
                Games.Ticked(old(ball.State()), 1.0, player.rect, old(ai.rect), PaddleSpeed as real, ReactionThreshold,
                             old(playerScore), old(aiScore), noise, signX, signY)
      ensures old(playerScore) <= playerScore && old(aiScore) <= aiScore
    {
      running := true;
      for i := 0 to |events|
        invariant Controls(paused, running) == DispatchAll(Controls(old(paused), true), events[..i])
        invariant unchanged(player, ai, ball) && playerScore == old(playerScore) && aiScore == old(aiScore)
      {
        var e := events[i];
        if e == Quit {
          running := false;
        }
        if e.KeyDown? {
          if e.key == Escape {
            running := false;
          } else if e.key == Space || e.key == P {
            paused := !paused;
          }
        }
        assert events[..i + 1][..i] == events[..i];
      }
      assert events[..|events|] == events;
      HandleInput(mouseY, upHeld, downHeld);
      if !paused {
        Update(noise, signX, signY);
      }
    }
  }
}
