# Pong: a verified model of the game core

This project models the simulation logic of a small pygame Pong game in Dafny:

- the player's paddle (`src/paddle.py`);
- the computer-controlled paddle and its difficulty profiles (`src/ai_paddle.py`);
- the ball: movement, wall bounce, paddle collision with spin, scoring test, serve and speed change (`src/ball.py`);
- the game: speed and difficulty settings, one simulation tick with scoring, and the key dispatch of the main loop with its menu / playing / paused states (`src/game.py`);
- the older single-file version with fixed speeds, keyboard steps and a pause toggle (`pong.py`).

The source changes its objects in place, and so does the model. Each entity is a class with the source's fields. Each method has a `modifies` frame and is proved against a pure function of the old state:

- `Moved`, `Positioned` and `Tracked` specify the paddle steps;
- `Served`, `Advanced`, `Collided` and `Rescaled` specify the ball;
- `Award`, `Dispatch` and `DispatchAll` specify the game's scoring and key handling;
- `Ticked` specifies one simulation step, `EventStep` and `AfterEvents` the controls and the ball after one event and after a frame's events, and `Steered` the older version's paddle input.

The properties the game promises are stated as `ensures` clauses of those functions and as lemmas about them.

Files, one module each:

- `Constants.dfy`: the numbers of `src/constants.py`.
- `Geometry.dfy`: pygame's `Rect` as a datatype, Python's `int()` (truncation toward zero) and the coercion of fractional coordinates.
- `Input.dfy`: abstract keys and events.
- `Paddles.dfy`, `AIPaddles.dfy`, `Balls.dfy`, `Games.dfy`: the modular game.
- `LegacyPong.dfy`: `pong.py`, reusing the step functions of the modular model.

Modelling choices:

- **Rect.** `pygame.Rect` is a record `(x, y, w, h)` with derived edges. `centery` is `y + h // 2`. `colliderect` is strict overlap on both axes, so rectangles that only touch do not collide.
- **Speed multiplier.** The game keeps it in integer tenths (5..30, i.e. 0.5..3.0). The entities receive `tenths / 10` as a real.
- **Velocities.** The ball's horizontal velocity is an integer. Its vertical velocity is a real, because spin makes it fractional.
- **Random draws and input.** The draws (`random.randint` noise, `random.choice` serve signs), the pointer's y, the held keys and the frame's events are parameters. The random draws come with range preconditions.
- **Fractional coordinates.** A fractional value stored into a `Rect` coordinate goes through `Geometry.Pixel`. The model only promises that the stored value lies within one unit of the written value and that whole numbers are stored exactly.

`move` and the AI's step are not clamped: the step is skipped only when the paddle already touches the edge it moves toward, so a step can leave the paddle partly outside the field, by less than one step. Only `set_position` keeps the paddle inside.

## Model

| member | source | states |
|---|---|---|
| Paddles.Moved | src/paddle.py:17-22 | `move` is a no-op at the edge it moves toward and for any direction other than -1/1; otherwise y moves by `speed` (exactly for whole-number speeds, within the pixel rounding otherwise); it never goes the wrong way, overshoots an edge by less than one step, and keeps x, width and height |
| Paddles.Positioned | src/paddle.py:24-32 | after `set_position` the paddle lies inside the field (0 <= top, bottom <= WINDOW_HEIGHT); when the centred rectangle fits, centery equals y; otherwise top is 0 or bottom is WINDOW_HEIGHT; x, width and height are kept |
| Paddles.PositionedIgnoresPreviousY | src/paddle.py:27-32 | the result of `set_position` does not depend on the previous y |
| Paddles.PositionedIdempotent | src/paddle.py:27-32 | calling `set_position(y)` twice equals calling it once |
| Paddles.Paddle.constructor | src/paddle.py:6-10 | the paddle starts at (x, y) with size 15x100 and speed = base speed x multiplier |
| Paddles.Paddle.UpdateSpeed | src/paddle.py:12-15 | stores the multiplier and sets speed = PADDLE_SPEED x multiplier; the rect is outside its frame and does not change |
| Paddles.Paddle.Move | src/paddle.py:17-22 | the new rect is `Moved` of the old one at the paddle's speed |
| Paddles.Paddle.SetPosition | src/paddle.py:24-32 | the new rect is `Positioned` of the old one; it stays inside the field, and for 50 <= y <= 550 it is centred exactly on y |
| AIPaddles.ProfileOf | src/ai_paddle.py:18-29 | "easy" gives (40, 20, 0.7), "medium" gives (20, 10, 1.0), and any other name gives the hard profile (5, 5, 1.2); every profile has a positive threshold no larger than its noise range and a positive speed factor |
| AIPaddles.HarderIsSharper | src/ai_paddle.py:18-29 | from easy to medium to hard, the noise range and the reaction threshold strictly shrink and the speed factor strictly grows |
| AIPaddles.Target | src/ai_paddle.py:39-55 | while the ball moves right (toward the AI), the target is the ball's centre y plus the noise; otherwise it is WINDOW_HEIGHT // 2, with no noise |
| AIPaddles.Tracked | src/ai_paddle.py:47-61 | within the +-threshold dead zone the paddle stays put; otherwise it makes one `move`-style step toward the target, never away from it, of at most one speed step, with no downward step from the bottom edge and no upward step from the top edge; x and size are kept |
| AIPaddles.AIPaddle.constructor | src/ai_paddle.py:7-13 | the profile matches the difficulty, but the speed is base x multiplier, without the speed factor |
| AIPaddles.AIPaddle.SetDifficulty | src/ai_paddle.py:15-29 | the profile fields become `ProfileOf(difficulty)`; speed is outside its frame and does not change |
| AIPaddles.AIPaddle.UpdateSpeed | src/ai_paddle.py:31-34 | speed = base x multiplier x speed factor |
| AIPaddles.AIPaddle.Update | src/ai_paddle.py:36-61 | with noise drawn from [-range, range] while the ball approaches, the new rect is `Tracked` toward `Target`; the profile and size are kept |
| Balls.Served | src/ball.py:28-39 | the serve puts the ball at the centre rectangle, with both velocity components of magnitude int(BALL_SPEED x multiplier) and with the drawn signs |
| Balls.SignedTrunc | src/ball.py:37-39 | int(base x sign) equals sign x int(base) for sign -1 or 1 |
| Balls.Advanced | src/ball.py:41-48 | the ball moves by its velocity (y within the pixel rounding); vx is unchanged; vy is negated exactly when the moved ball has top <= 0 or bottom >= WINDOW_HEIGHT, and keeps its magnitude |
| Balls.Collided | src/ball.py:50-70 | with no overlap nothing changes and the result is False; on overlap the result is True, vx is negated, y and size are kept, the ball is flush with the paddle on the side its new vx points to, and it no longer overlaps the paddle |
| Balls.CollidedCapsSpin | src/ball.py:55-63 | after a hit vy is the old vy plus the spin when that sum is within the cap 2 x BALL_SPEED x multiplier; otherwise it is int(cap) with the sum's sign; for a non-negative multiplier \|vy\| <= cap |
| Balls.Rescaled | src/ball.py:18-26 | a zero velocity is left untouched; the position never changes; the new vertical velocity is a whole number |
| Balls.RescaledKeepsSigns | src/ball.py:23-26 | rescaling by a positive factor keeps each component's sign or turns it into 0, and a zero component stays 0 |
| Balls.ScaledSign | src/ball.py:24-26 | int(v x scale) for positive scale has the sign of v or is 0 |
| Balls.OutOfBounds | src/ball.py:75-77 | a ball out of bounds has left on exactly one side and does not overlap the field |
| Balls.Ball.constructor | src/ball.py:14-16 | the new ball stores the multiplier and is `Served` |
| Balls.Ball.UpdateSpeed | src/ball.py:18-26 | the multiplier is stored and the velocity becomes `Rescaled` of the old one |
| Balls.Ball.Reset | src/ball.py:28-39 | the ball becomes `Served` at its current multiplier with the drawn signs |
| Balls.Ball.Update | src/ball.py:41-48 | the new motion is `Advanced` of the old one |
| Balls.Ball.CheckCollision | src/ball.py:50-70 | the new motion and the returned flag are `Collided` of the old motion |
| Balls.Ball.IsOutOfBounds | src/ball.py:75-77 | the result is `OutOfBounds` of the ball's rect |
| Games.ClampSpeed | src/game.py:50 | the clamped multiplier always lies in [0.5, 3.0]; a value already inside is kept, and values outside go to the nearer bound |
| Games.IndexOf | src/game.py:66-67 | the position of a difficulty name in the list |
| Games.NextDifficulty | src/game.py:64-69 | the next difficulty is a different level, whose index is one more, wrapping from hard to easy |
| Games.CycleOfThree | src/game.py:64-69 | cycling three times restores the original difficulty |
| Games.Adjusted | src/game.py:268-273 | UP and DOWN change the speed by one tenth, clamped, and A cycles the difficulty; any other key changes nothing; the started and paused flags are kept |
| Games.Dispatch | src/game.py:258-291 | only key presses act: any other event, Quit included, leaves the controls unchanged; in the menu, Enter only starts the game and paused is never touched; once started, ESC sets paused (no toggle, no exit), Enter clears paused only when paused, and the settings change only while paused; started holds afterwards exactly when it held before or the key was Enter; the speed stays in range |
| Games.DispatchAdjusts | src/game.py:268-273 | every other key is a settings key: in the menu, and after the start while paused, a key other than Enter and ESC gives `Adjusted` by that key (UP/DOWN step the speed, A cycles the difficulty, anything else changes nothing) |
| Games.DispatchKeepsSpeed | src/game.py:268-271 | no event other than UP or DOWN changes the speed |
| Games.DispatchAll | src/game.py:257-291 | over a frame's events the speed stays in range and the difficulty stays valid, and nothing returns the game to the start menu |
| Games.PlayingIgnoresAllButEscape | src/game.py:274-291 | a started, unpaused game ignores every event sequence without ESC |
| Games.MenuKeepsPauseFlag | src/game.py:261-273 | in the menu, a sequence without Enter keeps the game in the menu and keeps the pause flag |
| Games.EventStep | src/game.py:260-291 | one event: the controls become `Dispatch` of the key; the ball is rescaled only when the speed changed, never moves, stays at rest when at rest, and is never turned toward the AI |
| Games.AfterEvents | src/game.py:257-291 | the controls and the ball after the first n events, each an `EventStep`; the ball's rect never changes, a resting ball stays at rest, and rescaling never turns it toward the AI |
| Games.AfterEventsDispatches | src/game.py:260-291 | the controls after the first n events are `DispatchAll` of those events: the ball plays no part in the key handling |
| Games.NoSpeedKeysKeepBall | src/game.py:268-271 | a frame without UP or DOWN leaves the ball's motion untouched |
| Games.QuitAmongAll | src/game.py:257-259 | the running flag the loop keeps is cleared exactly when a quit event is among the events seen so far |
| Games.Award | src/game.py:83-87 | when the ball is out of bounds exactly one score rises by 1, the AI's exactly when right < 0; otherwise both scores are unchanged |
| Games.Ticked | src/game.py:73-88 | one simulation step as a function: the AI paddle keeps its column and size; see `TickedScoresAndServes` |
| Games.TickedScoresAndServes | src/game.py:73-88 | after a step no score decreases, at most one point is scored, and the ball is not out of bounds afterwards: it has not fully left the field on either side, and it was served again if it had |
| Games.Game.constructor | src/game.py:20-36 | multiplier 1.0, "medium", both paddles at their starting rectangles, a served ball, scores 0, neither started nor paused |
| Games.Game.HandleInput | src/game.py:41-46 | when not paused the player paddle is `Positioned` at the pointer's y; when paused it does not move |
| Games.Game.AdjustSpeed | src/game.py:48-55 | the multiplier becomes the clamped sum; if that equals the old value the entities are unchanged; otherwise all three receive the new multiplier and the ball is `Rescaled` |
| Games.Game.SetAiDifficulty | src/game.py:57-62 | a valid name is adopted by the game and by the AI, whose speed is recomputed; any other string changes nothing |
| Games.Game.CycleAiDifficulty | src/game.py:64-71 | the difficulty becomes `NextDifficulty` of the old one, and the AI paddle's difficulty equals the game's |
| Games.Game.Update | src/game.py:73-88 | one tick: the AI rect, the ball and the scores become `Ticked` of the old state (the ball `Advanced`, the AI `Tracked`, the ball `Collided` with the player's paddle and then the AI's, the scores `Award`ed and the ball `Served` again when it left the field); no score decreases and at most one point is scored |
| Games.Game.Rally | src/game.py:75-80 | the AI rect becomes `Tracked` toward the target of the `Advanced` ball, and the ball becomes `Collided` with the player's paddle and then with the moved AI paddle |
| Games.Game.Score | src/game.py:83-88 | the scores become `Award` of the ball's rect, and the ball is `Served` again exactly when it was out of bounds |
| Games.Game.HandleEvent | src/game.py:260-291 | the state the keys act on and the ball's motion become `EventStep` of the old ones: `Dispatch` of the key, and the ball untouched unless the speed changed |
| Games.Game.ProcessEvents | src/game.py:257-291 | the event loop's result equals `DispatchAll` over the frame's events, the ball equals `AfterEvents` over all of them, and `running` is cleared exactly when a quit event arrived |
| Games.Game.Frame | src/game.py:256-299 | one frame: the events, then paddle-follow and a tick; when the game has started and is not paused the AI rect, ball and scores are `Ticked` from the ball `AfterEvents` left; otherwise no rect and no score changes, and the ball keeps the motion `AfterEvents` left it |
| Games.Game.Play | src/game.py:293-296 | after the events: when the game has started and is not paused, the player's paddle is `Positioned` and the AI rect, ball and scores are `Ticked`; otherwise no rect, motion or score changes |
| LegacyPong.Dispatch | pong.py:215-222 | SPACE or P flips paused; ESC or a quit event clears running; nothing else has any effect |
| LegacyPong.DispatchAll | pong.py:215-222 | the loop never restarts once running is false |
| LegacyPong.PausedParity | pong.py:221-222 | after a sequence of events, paused has flipped exactly when the sequence holds an odd number of toggles |
| LegacyPong.TwoTogglesRestore | pong.py:221-222 | two toggle presses restore both flags |
| LegacyPong.RunningUntilExit | pong.py:213-220 | the loop keeps running exactly as long as no ESC or quit event has arrived |
| LegacyPong.Paddle.constructor | pong.py:28-30 | the paddle starts at (x, y), size 15x100, with speed PADDLE_SPEED |
| LegacyPong.Paddle.Move | pong.py:32-37 | `Moved` at the fixed speed: a no-op at the edge it moves toward, otherwise y changes by exactly PADDLE_SPEED |
| LegacyPong.Paddle.SetPosition | pong.py:39-47 | `Positioned`, so 0 <= top and bottom <= WINDOW_HEIGHT always hold afterwards |
| LegacyPong.Ball.constructor | pong.py:88-89 | the new ball is served at the base speed |
| LegacyPong.Ball.Reset | pong.py:91-101 | the ball is centred with velocity_x and velocity_y each equal to BALL_SPEED or its negation, by the drawn signs |
| LegacyPong.Ball.Update | pong.py:103-110 | `Advanced`: vx is unchanged and vy is negated exactly at a wall |
| LegacyPong.Ball.CheckCollision | pong.py:112-129 | `Collided` at multiplier 1: either False with no change, or vx negated, \|vy\| <= 2 x BALL_SPEED, the ball flush with the paddle, and True |
| LegacyPong.Steered | pong.py:150-162 | the player's paddle after input: `Positioned` at the pointer when no key is held, within one PADDLE_SPEED step of it otherwise, less than one step outside the field, with x and size kept |
| LegacyPong.Ball.IsOutOfBounds | pong.py:134-136 | the result is `OutOfBounds` of the ball's rect |
| LegacyPong.AIPaddle.constructor | pong.py:54-57 | the paddle starts at (x, y) with the fixed speed and a reaction delay of 0.3 |
| LegacyPong.AIPaddle.Update | pong.py:59-81 | `Tracked` with noise in [-20, 20] only while the ball approaches, otherwise toward WINDOW_HEIGHT // 2; a +-10 dead zone and at most one PADDLE_SPEED step |
| LegacyPong.Game.constructor | pong.py:140-146 | both paddles at their starting rectangles, a served ball, scores 0, not paused |
| LegacyPong.Game.HandleInput | pong.py:150-162 | when not paused the player's rect becomes `Steered` of the old one: `Positioned` at the pointer, then an up step if W/Up is held and a down step if S/Down is held; nothing moves while paused |
| LegacyPong.Game.Update | pong.py:164-179 | the AI rect, ball and scores become `Ticked` at base speed; when the ball leaves the field exactly one score rises by 1, the AI's exactly when right < 0, and the ball is served again; otherwise the scores are unchanged |
| LegacyPong.Game.Frame | pong.py:213-228 | the flags become `DispatchAll` over the frame's events; unless paused the player's rect is `Steered` and the AI rect, ball and scores are `Ticked` at base speed; a paused frame changes no rect, no score and not the ball's motion |

## Left out

- Drawing is not modelled: the start menu, the pause overlay, the entities' `draw` methods, the fonts and all rendering. They are pygame UI with no state the simulation reads.
- The event and clock machinery is not modelled: `pygame.event.get`, `clock.tick(60)`, `pygame.quit` and `sys.exit`. The model takes one frame's events as a sequence and stops at the returned `running` flag.
- Mouse and keyboard polling are not modelled. The pointer's y and the held keys are parameters.
- `random.randint` and `random.choice` are not modelled. Their values are parameters with range preconditions, and no distribution is claimed.
- Window and clock creation in `src/constants.py` are I/O. Only the constants are kept.
- `src/sounds.py` (audio playback) and the sound-generation scripts in `scripts/` (sine synthesis and WAV writing) are not part of this model.
- There is no win score, game-over state, return to the menu or double-press exit to model: the code has none of them.
- Geometry.Pixel: pygame's exact rounding of a fractional value stored into a `Rect` coordinate is not modelled, because it differs between pygame versions. The contract promises only a distance of less than one and exact storage of whole numbers, so `Moved`, `Tracked` and `Advanced` state fractional steps within that tolerance.
- Balls.Rescaled: the magnitude of `update_speed` is not modelled, because it is floating-point square-root arithmetic. The factor BALL_SPEED x multiplier / |velocity| is a positive parameter `scale`. Only the zero guard, the truncation and the sign facts are stated.
- Balls.Ball.UpdateSpeed: takes the same `scale` parameter as `Rescaled`, for the same reason.
- Games.Game.AdjustSpeed: takes the ball's `scale` as a parameter, and counts the multiplier in exact tenths. Python's float drift from repeated 0.1 steps is therefore not modelled, and neither is the case where a drifted value fails the equality test.
- Games.Multiplier: the multiplier is an exact tenth. The float the source accumulates is not modelled.
