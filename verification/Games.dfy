/**
 * The game of src/game.py: global speed and difficulty settings, one
 * simulation tick, and the key dispatch of the main loop.
 */
module Games {
  import opened Constants
  import opened Geometry
  import opened Input
  import Paddles
  import AIPaddles
  import Balls

  /** The speed multiplier is kept in tenths: 5 is 0.5, 30 is 3.0. */
  const MinSpeedTenths: int := 5
  const MaxSpeedTenths: int := 30

  const Difficulties: seq<string> := ["easy", "medium", "hard"]

  function Multiplier(tenths: int): real {
    tenths as real / 10.0
  }

  /** `max(0.5, min(3.0, m))` in tenths. */
  function ClampSpeed(tenths: int): (r: int)
    ensures MinSpeedTenths <= r <= MaxSpeedTenths
    ensures MinSpeedTenths <= tenths <= MaxSpeedTenths ==> r == tenths
    ensures tenths < MinSpeedTenths ==> r == MinSpeedTenths
    ensures MaxSpeedTenths < tenths ==> r == MaxSpeedTenths
  {
    if tenths < MinSpeedTenths then MinSpeedTenths
    else if tenths > MaxSpeedTenths then MaxSpeedTenths
    else tenths
  }

  /** `difficulties.index(d)`. */
  function IndexOf(d: string): (i: nat)
    requires d in Difficulties
    ensures i < |Difficulties| && Difficulties[i] == d
  {
    if d == Difficulties[0] then 0 else if d == Difficulties[1] then 1 else 2
  }

  /** `cycle_ai_difficulty`: the next name in the list, wrapping around. */
  function NextDifficulty(d: string): (r: string)
    requires d in Difficulties
    ensures r in Difficulties && r != d
    ensures IndexOf(r) == (IndexOf(d) + 1) % |Difficulties|
  {
    Difficulties[(IndexOf(d) + 1) % |Difficulties|]
  }

  /** Cycling three times comes back to the start. */
  lemma CycleOfThree(d: string)
    requires d in Difficulties
    ensures NextDifficulty(NextDifficulty(NextDifficulty(d))) == d
  {
  }

  /** The part of the game state the keys act on. */
  datatype Controls = Controls(started: bool, paused: bool, speedTenths: int, difficulty: string)

  /** The three settings keys, shared by the start menu and the pause screen. */
  function Adjusted(c: Controls, k: Key): (r: Controls)
    requires c.difficulty in Difficulties
    ensures r.started == c.started && r.paused == c.paused && r.difficulty in Difficulties
    ensures k == Up ==> r == c.(speedTenths := ClampSpeed(c.speedTenths + 1))
    ensures k == Down ==> r == c.(speedTenths := ClampSpeed(c.speedTenths - 1))
    ensures k == A ==> r == c.(difficulty := NextDifficulty(c.difficulty))
    ensures k != Up && k != Down && k != A ==> r == c
  {
    if k == Up then c.(speedTenths := ClampSpeed(c.speedTenths + 1))
    else if k == Down then c.(speedTenths := ClampSpeed(c.speedTenths - 1))
    else if k == A then c.(difficulty := NextDifficulty(c.difficulty))
    else c
  }

  /**
   * One event of the main loop. Before the game starts, Enter starts it and the
   * settings keys act. Afterwards Escape pauses (it neither toggles nor exits),
   * Enter resumes a paused game, and the settings keys act only while paused.
   */
  function Dispatch(c: Controls, e: Event): (r: Controls)
    requires c.difficulty in Difficulties
    ensures r.difficulty in Difficulties
    ensures MinSpeedTenths <= c.speedTenths <= MaxSpeedTenths ==> MinSpeedTenths <= r.speedTenths <= MaxSpeedTenths
    ensures r.started <==> c.started || IsConfirm(e)
    ensures !c.started ==> r.paused == c.paused
    ensures c.started && e == KeyDown(Escape) ==> r == c.(paused := true)
    ensures c.started && c.paused && IsConfirm(e) ==> r == c.(paused := false)
    ensures c.started && !c.paused && e != KeyDown(Escape) ==> r == c
    // only key presses act, and Enter in the menu only starts the game
    ensures !e.KeyDown? ==> r == c
    ensures !c.started && IsConfirm(e) ==> r == c.(started := true)
  {
    match e
    case KeyDown(k) =>
      if !c.started then
        if k == Return || k == KpEnter then c.(started := true) else Adjusted(c, k)
      else if k == Escape then c.(paused := true)
      else if k == Return || k == KpEnter then (if c.paused then c.(paused := false) else c)
      else if c.paused then Adjusted(c, k)
      else c
    case _ => c
  }

  /** The settings keys act in the start menu, and after the start only while paused. */
  lemma DispatchAdjusts(c: Controls, e: Event)
    requires c.difficulty in Difficulties && e.KeyDown? && !IsConfirm(e)
    ensures !c.started ==> Dispatch(c, e) == Adjusted(c, e.key)
    ensures c.started && c.paused && e.key != Escape ==> Dispatch(c, e) == Adjusted(c, e.key)
  {
  }

  /** The events of one frame, handled in order. */
  function DispatchAll(c: Controls, events: seq<Event>): (r: Controls)
    requires c.difficulty in Difficulties
    ensures r.difficulty in Difficulties
    ensures MinSpeedTenths <= c.speedTenths <= MaxSpeedTenths ==> MinSpeedTenths <= r.speedTenths <= MaxSpeedTenths
    // nothing returns to the start menu
    ensures c.started ==> r.started
  {
    if events == [] then c
    else Dispatch(DispatchAll(c, events[..|events| - 1]), events[|events| - 1])
  }

  /** While the game runs unpaused, only Escape has any effect. */
  lemma {:induction false} PlayingIgnoresAllButEscape(c: Controls, events: seq<Event>)
    requires c.difficulty in Difficulties && c.started && !c.paused
    requires forall i :: 0 <= i < |events| ==> events[i] != KeyDown(Escape)
    ensures DispatchAll(c, events) == c
  {
    if events != [] {
      PlayingIgnoresAllButEscape(c, events[..|events| - 1]);
    }
  }

  /** In the start menu without Enter, the game stays in the menu and the pause flag is untouched. */
  lemma {:induction false} MenuKeepsPauseFlag(c: Controls, events: seq<Event>)
    requires c.difficulty in Difficulties && !c.started
    requires forall i :: 0 <= i < |events| ==> !IsConfirm(events[i])
    ensures !DispatchAll(c, events).started && DispatchAll(c, events).paused == c.paused
  {
    if events != [] {
      MenuKeepsPauseFlag(c, events[..|events| - 1]);
    }
  }

  /**
   * One event: the key is dispatched, and when that changes the speed the ball's
   * velocity is rescaled by the event's ratio `scale` (a positive number in
   * every frame the game runs); otherwise the ball is left alone.
   */
  function EventStep(c: Controls, m: Balls.Motion, e: Event, scale: real): (r: (Controls, Balls.Motion))
    requires c.difficulty in Difficulties
    ensures r.0 == Dispatch(c, e)
    // an event never moves the ball, and a ball at rest stays at rest
    ensures r.1.rect == m.rect
    ensures m.vx == 0 && m.vy == 0.0 ==> r.1 == m
    // rescaling never turns the ball toward the AI
    ensures 0 < r.1.vx ==> 0 < m.vx
    ensures r.0.speedTenths == c.speedTenths ==> r.1 == m
  {
    var next := Dispatch(c, e);
    if next.speedTenths != c.speedTenths && 0.0 < scale then
      Balls.RescaledKeepsSigns(m, scale);
      (next, Balls.Rescaled(m, scale))
    else (next, m)
  }

  /** The controls and the ball's motion after the first `n` events of a frame, handled in order. */
  function AfterEvents(c: Controls, m: Balls.Motion, events: seq<Event>, scales: seq<real>, n: nat): (r: (Controls, Balls.Motion))
    requires c.difficulty in Difficulties
    requires n <= |events| == |scales|
    ensures r.0.difficulty in Difficulties
    // the events never move the ball, and a ball at rest stays at rest
    ensures r.1.rect == m.rect
    ensures m.vx == 0 && m.vy == 0.0 ==> r.1 == m
    // rescaling never turns the ball toward the AI
    ensures 0 < r.1.vx ==> 0 < m.vx
  {
    if n == 0 then (c, m)
    else
      var before := AfterEvents(c, m, events, scales, n - 1);
      EventStep(before.0, before.1, events[n - 1], scales[n - 1])
  }

  /** The controls part of `AfterEvents` is the key dispatch alone. */
  lemma {:induction false} AfterEventsDispatches(c: Controls, m: Balls.Motion, events: seq<Event>, scales: seq<real>, n: nat)
    requires c.difficulty in Difficulties
    requires n <= |events| == |scales|
    ensures AfterEvents(c, m, events, scales, n).0 == DispatchAll(c, events[..n])
  {
    if n != 0 {
      AfterEventsDispatches(c, m, events, scales, n - 1);
      assert events[..n][..n - 1] == events[..n - 1];
    }
  }

  /** Only UP and DOWN change the speed. */
  lemma DispatchKeepsSpeed(c: Controls, e: Event)
    requires c.difficulty in Difficulties
    requires e != KeyDown(Up) && e != KeyDown(Down)
    ensures Dispatch(c, e).speedTenths == c.speedTenths
  {
  }

  /** Without UP or DOWN among the events, the ball's velocity is untouched. */
  lemma {:induction false} NoSpeedKeysKeepBall(c: Controls, m: Balls.Motion, events: seq<Event>, scales: seq<real>, n: nat)
    requires c.difficulty in Difficulties
    requires n <= |events| == |scales|
    requires forall i :: 0 <= i < |events| ==> events[i] != KeyDown(Up) && events[i] != KeyDown(Down)
    ensures AfterEvents(c, m, events, scales, n).1 == m
  {
    if n != 0 {
      NoSpeedKeysKeepBall(c, m, events, scales, n - 1);
      var before := AfterEvents(c, m, events, scales, n - 1);
      DispatchKeepsSpeed(before.0, events[n - 1]);
    }
  }

  /** Whether a quit event is among the first `n` events of a frame. */
  predicate QuitAmong(events: seq<Event>, n: nat)
    requires n <= |events|
  {
    n != 0 && (events[n - 1] == Quit || QuitAmong(events, n - 1))
  }

  /** `QuitAmong` is membership in the prefix. */
  lemma {:induction false} QuitAmongAll(events: seq<Event>, n: nat)
    requires n <= |events|
    ensures QuitAmong(events, n) <==> Quit in events[..n]
  {
    if n != 0 {
      QuitAmongAll(events, n - 1);
      assert events[..n] == events[..n - 1] + [events[n - 1]];
    }
  }

  /**
   * The scoring rule of `update`: a ball out on the left is a point for the AI,
   * out on the right a point for the player; otherwise nobody scores.
   */
  function Award(ball: Rect, playerScore: nat, aiScore: nat): (s: (nat, nat))
    ensures !Balls.OutOfBounds(ball) ==> s == (playerScore, aiScore)
    ensures Balls.OutOfBounds(ball) ==>
              s.0 + s.1 == playerScore + aiScore + 1 && playerScore <= s.0 && aiScore <= s.1
    ensures Balls.OutOfBounds(ball) ==> (s.1 == aiScore + 1 <==> ball.Right() < 0)
  {
    if Balls.OutOfBounds(ball) then
      if ball.Right() < 0 then (playerScore, aiScore + 1) else (playerScore + 1, aiScore)
    else (playerScore, aiScore)
  }

  /** What one tick changes: the AI paddle, the ball and the two scores. */
  datatype Outcome = Outcome(aiRect: Rect, ball: Balls.Motion, playerScore: nat, aiScore: nat)

  /**
   * One tick of `update`: move the ball, step the AI toward its target, bounce
   * off the player's paddle and then the AI's, award a point and serve again if
   * the ball left the field.
   */
  function Ticked(ball: Balls.Motion, multiplier: real, player: Rect, ai: Rect, aiSpeed: real, threshold: int,
                  playerScore: nat, aiScore: nat, noise: int, signX: int, signY: int): (r: Outcome)
    requires 0 <= threshold
    requires signX == -1 || signX == 1
    requires signY == -1 || signY == 1
    ensures r.aiRect.x == ai.x && r.aiRect.w == ai.w && r.aiRect.h == ai.h
  {
    var moved := Balls.Advanced(ball);
    var aiRect := AIPaddles.Tracked(ai, aiSpeed, threshold, AIPaddles.Target(moved.vx, moved.rect.CenterY(), noise));
    var afterPlayer := Balls.Collided(moved, multiplier, player).0;
    var afterAi := Balls.Collided(afterPlayer, multiplier, aiRect).0;
    var scores := Award(afterAi.rect, playerScore, aiScore);
    Outcome(aiRect, if Balls.OutOfBounds(afterAi.rect) then Balls.Served(multiplier, signX, signY) else afterAi,
            scores.0, scores.1)
  }

  /**
   * No score ever decreases, at most one point is scored per tick, and the ball
   * in play is never out of bounds after a tick.
   */
  lemma TickedScoresAndServes(ball: Balls.Motion, multiplier: real, player: Rect, ai: Rect, aiSpeed: real,
                              threshold: int, playerScore: nat, aiScore: nat, noise: int, signX: int, signY: int)
    requires 0 <= threshold
    requires signX == -1 || signX == 1
    requires signY == -1 || signY == 1
    ensures var r := Ticked(ball, multiplier, player, ai, aiSpeed, threshold, playerScore, aiScore, noise, signX, signY);
            && playerScore <= r.playerScore && aiScore <= r.aiScore
            && r.playerScore + r.aiScore <= playerScore + aiScore + 1
            && !Balls.OutOfBounds(r.ball.rect)
  {
  }

  class Game {
    var speedTenths: int
    var aiDifficulty: string
    const player: Paddles.Paddle
    const ai: AIPaddles.AIPaddle
    const ball: Balls.Ball
    var playerScore: nat
    var aiScore: nat
    var paused: bool
    var gameStarted: bool

    function CurrentControls(): Controls
      reads this
    {
      Controls(gameStarted, paused, speedTenths, aiDifficulty)
    }

    /** Every entity runs at the game's multiplier and the AI plays the game's difficulty. */
    ghost predicate Settings()
      reads this, player, ai, ball
    {
      MinSpeedTenths <= speedTenths <= MaxSpeedTenths && aiDifficulty in Difficulties &&
      player.speedMultiplier == Multiplier(speedTenths) &&
      ai.difficulty == aiDifficulty && ai.speedMultiplier == Multiplier(speedTenths) &&
      ai.SpeedDerived() &&
      ball.speedMultiplier == Multiplier(speedTenths)
    }

    /** Every entity keeps its shape, and the paddles keep their columns. */
    ghost predicate Shapes()
      reads this, player, ai, ball
    {
      player.Valid() && ai.Valid() && ball.Valid() &&
      player.rect.x == 50 && ai.rect.x == WindowWidth - 50 - PaddleWidth
    }

    /** The game's invariant, kept by every method. */
    ghost predicate Valid()
      reads this, player, ai, ball
    {
      Settings() && Shapes()
    }

    /** `signX` and `signY` are the two signs the first serve draws. */
    constructor (signX: int, signY: int)
      requires signX == -1 || signX == 1
      requires signY == -1 || signY == 1
      ensures Valid() && fresh(player) && fresh(ai) && fresh(ball)
      ensures CurrentControls() == Controls(false, false, 10, "medium")
      ensures playerScore == 0 && aiScore == 0
      ensures player.rect == Rect(50, WindowHeight / 2 - PaddleHeight / 2, PaddleWidth, PaddleHeight)
      ensures ai.rect == Rect(WindowWidth - 50 - PaddleWidth, WindowHeight / 2 - PaddleHeight / 2, PaddleWidth, PaddleHeight)
      ensures ball.State() == Balls.Served(Multiplier(10), signX, signY)
    {
      speedTenths := 10;
      aiDifficulty := "medium";
      player := new Paddles.Paddle(50, WindowHeight / 2 - PaddleHeight / 2, Multiplier(10));
      ai := new AIPaddles.AIPaddle(WindowWidth - 50 - PaddleWidth, WindowHeight / 2 - PaddleHeight / 2,
                                   Multiplier(10), "medium");
      ball := new Balls.Ball(Multiplier(10), signX, signY);
      playerScore := 0;
      aiScore := 0;
      paused := false;
      gameStarted := false;
    }

    /** Paddle-follow: the pointer's y is `mouseY`. */
    method HandleInput(mouseY: int)
      requires Valid()
      modifies player`rect
      ensures Valid()
      ensures paused ==> player.rect == old(player.rect)
      ensures !paused ==> player.rect == Paddles.Positioned(old(player.rect), mouseY)
    {
      if !paused {
        player.SetPosition(mouseY);
      }
    }

    /** `scale` stands for the ball's speed ratio, which the model takes as given. */
    method AdjustSpeed(delta: int, scale: real)
      requires Valid() && 0.0 < scale
      modifies this`speedTenths, player`speedMultiplier, player`speed, ai`speedMultiplier, ai`speed,
               ball`speedMultiplier, ball`velocityX, ball`velocityY
      ensures Valid()
      ensures speedTenths == ClampSpeed(old(speedTenths) + delta)
      ensures speedTenths == old(speedTenths) ==> unchanged(player, ai, ball)
      ensures speedTenths != old(speedTenths) ==> ball.State() == Balls.Rescaled(old(ball.State()), scale)
      ensures 0 < ball.velocityX ==> 0 < old(ball.velocityX)
    {
      Balls.RescaledKeepsSigns(ball.State(), scale);
      var newTenths := ClampSpeed(speedTenths + delta);
      if newTenths != speedTenths {
        speedTenths := newTenths;
        player.UpdateSpeed(Multiplier(speedTenths));
        ai.UpdateSpeed(Multiplier(speedTenths));
        ball.UpdateSpeed(Multiplier(speedTenths), scale);
      }
    }

    /** Names outside the three levels are ignored. */
    method SetAiDifficulty(difficulty: string)
      requires Valid()
      modifies this`aiDifficulty, ai`difficulty, ai`imperfectionRange, ai`reactionThreshold, ai`speedFactor,
               ai`speedMultiplier, ai`speed
      ensures Valid()
      ensures difficulty in Difficulties ==> aiDifficulty == difficulty
      ensures difficulty !in Difficulties ==> aiDifficulty == old(aiDifficulty) && unchanged(ai)
    {
      if difficulty in Difficulties {
        aiDifficulty := difficulty;
        ai.SetDifficulty(difficulty);
        ai.UpdateSpeed(Multiplier(speedTenths));
      }
    }

    method CycleAiDifficulty()
      requires Valid()
      modifies this`aiDifficulty, ai`difficulty, ai`imperfectionRange, ai`reactionThreshold, ai`speedFactor,
               ai`speedMultiplier, ai`speed
      ensures Valid()
      ensures aiDifficulty == NextDifficulty(old(aiDifficulty)) && ai.difficulty == aiDifficulty
    {
      var currentIndex := IndexOf(aiDifficulty);
      var nextIndex := (currentIndex + 1) % |Difficulties|;
      aiDifficulty := Difficulties[nextIndex];
      ai.SetDifficulty(aiDifficulty);
      ai.UpdateSpeed(Multiplier(speedTenths));
    }

    /**
     * One tick: move the ball, step the AI, bounce off both paddles, then score
     * and serve again if the ball left the field. `noise` is the AI's draw,
     * `signX` and `signY` the serve's.
     */
    method Update(noise: int, signX: int, signY: int)
      requires Valid()
      requires 0 < ball.velocityX ==> -ai.imperfectionRange <= noise <= ai.imperfectionRange
      requires signX == -1 || signX == 1
      requires signY == -1 || signY == 1
      modifies this`playerScore, this`aiScore, ai`rect, ball`rect, ball`velocityX, ball`velocityY
      ensures Valid()
      ensures Outcome(ai.rect, ball.State(), playerScore, aiScore) ==
              Ticked(old(ball.State()), ball.speedMultiplier, player.rect, old(ai.rect), ai.speed, ai.reactionThreshold,
                     old(playerScore), old(aiScore), noise, signX, signY)
      ensures old(playerScore) <= playerScore && old(aiScore) <= aiScore
      ensures playerScore + aiScore <= old(playerScore) + old(aiScore) + 1
    {
      ghost var served := ball.State();
      ghost var aiBefore := ai.rect;
      Rally(noise);
      Score(signX, signY);
      TickedScoresAndServes(served, ball.speedMultiplier, player.rect, aiBefore, ai.speed, ai.reactionThreshold,
                            old(playerScore), old(aiScore), noise, signX, signY);
    }

    /**
     * The movement step of `update`: the ball moves, the AI paddle follows it, and
     * the ball bounces off the player's paddle and then off the AI's.
     */
    method Rally(noise: int)
      requires ball.Valid() && ai.Valid()
      requires 0 < ball.velocityX ==> -ai.imperfectionRange <= noise <= ai.imperfectionRange
      modifies ai`rect, ball`rect, ball`velocityX, ball`velocityY
      ensures ball.Valid() && ai.Valid()
      ensures var moved := Balls.Advanced(old(ball.State()));
              && ai.rect == AIPaddles.Tracked(old(ai.rect), ai.speed, ai.reactionThreshold,
                                               AIPaddles.Target(moved.vx, moved.rect.CenterY(), noise))
              && ball.State() == Balls.Collided(Balls.Collided(moved, ball.speedMultiplier, player.rect).0,
                                                ball.speedMultiplier, ai.rect).0
    {
      ball.Update();
      ai.Update(ball, noise);
      var _ := ball.CheckCollision(player.rect);
      var _ := ball.CheckCollision(ai.rect);
    }

    /** The scoring step of `update`: a point for the side that did not miss, and a new serve. */
    method Score(signX: int, signY: int)
      requires ball.Valid()
      requires signX == -1 || signX == 1
      requires signY == -1 || signY == 1
      modifies this`playerScore, this`aiScore, ball`rect, ball`velocityX, ball`velocityY
      ensures ball.Valid()
      ensures (playerScore, aiScore) == Award(old(ball.rect), old(playerScore), old(aiScore))
      ensures ball.State() == if Balls.OutOfBounds(old(ball.rect)) then Balls.Served(ball.speedMultiplier, signX, signY)
                              else old(ball.State())
    {
      if ball.IsOutOfBounds() {
        if ball.rect.Right() < 0 {
          aiScore := aiScore + 1;
        } else {
          playerScore := playerScore + 1;
        }
        ball.Reset(signX, signY);
      }
    }

    /** The KEYDOWN branch of the main loop for one event. */
    method HandleEvent(e: Event, scale: real)
      requires Valid() && 0.0 < scale
      modifies this`gameStarted, this`paused, this`speedTenths, this`aiDifficulty,
               player`speedMultiplier, player`speed,
               ai`difficulty, ai`imperfectionRange, ai`reactionThreshold, ai`speedFactor, ai`speedMultiplier, ai`speed,
               ball`speedMultiplier, ball`velocityX, ball`velocityY
      ensures Valid()
      ensures (CurrentControls(), ball.State()) == EventStep(old(CurrentControls()), old(ball.State()), e, scale)
    {
      if e.KeyDown? {
        var k := e.key;
        if !gameStarted {
          if k == Return || k == KpEnter {
            gameStarted := true;
          } else if k == Up {
            AdjustSpeed(1, scale);
          } else if k == Down {
            AdjustSpeed(-1, scale);
          } else if k == A {
            CycleAiDifficulty();
          }
        } else {
          if k == Escape {
            paused := true;
          } else if k == Return || k == KpEnter {
            if paused {
              paused := false;
            }
          } else if paused {
            if k == Up {
              AdjustSpeed(1, scale);
            } else if k == Down {
              AdjustSpeed(-1, scale);
            } else if k == A {
              CycleAiDifficulty();
            }
          }
        }
      }
    }

    /**
     * The event loop of one frame. `scales[i]` is the ball's speed ratio for the
     * i-th event (used only if it changes the speed). The result is the loop's
     * `running` flag: only a quit event clears it.
     */
    method ProcessEvents(events: seq<Event>, scales: seq<real>) returns (running: bool)
      requires Valid()
      requires |scales| == |events| && forall i :: 0 <= i < |scales| ==> 0.0 < scales[i]
      modifies this`gameStarted, this`paused, this`speedTenths, this`aiDifficulty,
               player`speedMultiplier, player`speed,
               ai`difficulty, ai`imperfectionRange, ai`reactionThreshold, ai`speedFactor, ai`speedMultiplier, ai`speed,
               ball`speedMultiplier, ball`velocityX, ball`velocityY
      ensures Valid()
      ensures CurrentControls() == DispatchAll(old(CurrentControls()), events)
      ensures ball.State() == AfterEvents(old(CurrentControls()), old(ball.State()), events, scales, |events|).1
      ensures running <==> Quit !in events
    {
      running := true;
      ghost var controls, motion := CurrentControls(), ball.State();
      for i := 0 to |events|
        invariant Valid()
        invariant (CurrentControls(), ball.State()) == AfterEvents(controls, motion, events, scales, i)
        invariant running == !QuitAmong(events, i)
      {
        if events[i] == Quit {
          running := false;
        }
        HandleEvent(events[i], scales[i]);
      }
      assert events[..|events|] == events;
      AfterEventsDispatches(controls, motion, events, scales, |events|);
      QuitAmongAll(events, |events|);
    }

    /**
     * One pass of the main loop: the events, then paddle-follow and a tick,
     * which run only once the game has started and is not paused.
     */
    method Frame(events: seq<Event>, scales: seq<real>, mouseY: int, noise: int, signX: int, signY: int)
      returns (running: bool)
      requires Valid()
      requires |scales| == |events| && forall i :: 0 <= i < |scales| ==> 0.0 < scales[i]
      requires var range := AIPaddles.ProfileOf(DispatchAll(CurrentControls(), events).difficulty).imperfectionRange;
               0 < ball.velocityX ==> -range <= noise <= range
      requires signX == -1 || signX == 1
      requires signY == -1 || signY == 1
      modifies this`gameStarted, this`paused, this`speedTenths, this`aiDifficulty, this`playerScore, this`aiScore,
               player`rect, player`speedMultiplier, player`speed,
               ai`rect, ai`difficulty, ai`imperfectionRange, ai`reactionThreshold, ai`speedFactor, ai`speedMultiplier, ai`speed,
               ball`rect, ball`speedMultiplier, ball`velocityX, ball`velocityY
      ensures Valid()
      ensures CurrentControls() == DispatchAll(old(CurrentControls()), events)
      ensures running <==> Quit !in events
      ensures !gameStarted || paused ==>
                player.rect == old(player.rect) && ai.rect == old(ai.rect) && ball.rect == old(ball.rect) &&
                playerScore == old(playerScore) && aiScore == old(aiScore)
      ensures !gameStarted || paused ==>
                ball.State() == AfterEvents(old(CurrentControls()), old(ball.State()), events, scales, |events|).1
      ensures gameStarted && !paused ==> player.rect == Paddles.Positioned(old(player.rect), mouseY)
      // a live frame ticks once, from the ball the events left and the paddle the pointer placed
      ensures gameStarted && !paused ==>
                Outcome(ai.rect, ball.State(), playerScore, aiScore) ==
                Ticked(AfterEvents(old(CurrentControls()), old(ball.State()), events, scales, |events|).1, ball.speedMultiplier,
                       player.rect, old(ai.rect), ai.speed, ai.reactionThreshold, old(playerScore), old(aiScore),
                       noise, signX, signY)
      ensures old(playerScore) <= playerScore && old(aiScore) <= aiScore
      ensures playerScore + aiScore <= old(playerScore) + old(aiScore) + 1
    {
      running := ProcessEvents(events, scales);
      Play(mouseY, noise, signX, signY);
    }

    /** The rest of a frame: paddle-follow and a tick, once the game has started and is not paused. */
    method Play(mouseY: int, noise: int, signX: int, signY: int)
      requires Valid()
      requires 0 < ball.velocityX ==> -ai.imperfectionRange <= noise <= ai.imperfectionRange
      requires signX == -1 || signX == 1
      requires signY == -1 || signY == 1
      modifies this`playerScore, this`aiScore, player`rect, ai`rect, ball`rect, ball`velocityX, ball`velocityY
      ensures Valid()
      ensures !old(gameStarted) || old(paused) ==>
                player.rect == old(player.rect) && ai.rect == old(ai.rect) && ball.State() == old(ball.State()) &&
                playerScore == old(playerScore) && aiScore == old(aiScore)
      ensures old(gameStarted) && !old(paused) ==>
                player.rect == Paddles.Positioned(old(player.rect), mouseY) &&
                Outcome(ai.rect, ball.State(), playerScore, aiScore) ==
                Ticked(old(ball.State()), ball.speedMultiplier, player.rect, old(ai.rect), ai.speed, ai.reactionThreshold,
                       old(playerScore), old(aiScore), noise, signX, signY)
      ensures old(playerScore) <= playerScore && old(aiScore) <= aiScore
      ensures playerScore + aiScore <= old(playerScore) + old(aiScore) + 1
    {
      if gameStarted {
        HandleInput(mouseY);
        if !paused {
          Update(noise, signX, signY);
        }
      }
    }
  }
}
