# Dodge: the per-frame gameplay logic in Dafny

"Dodge" is a small endless-runner arcade game built on raylib. A player square jumps
over obstacles that scroll in from the right edge of the screen. Each obstacle that
leaves the screen scores a point. A hit costs one of three lives and gives a short
invincibility window. With no lives left the game is over until space is pressed.

This project models the gameplay core of `dodge.cpp`: the countdown `Timer`, `Obstacle`,
`Player`, `World`, and the update half of `Game::Run`. It proves what each step does to
that state.

The modules follow the classes of the source, one file each:

- `screen.dfy` (`Screen`): the screen, floor and scrolling constants.
- `geometry.dfy` (`Geometry`): `Vec2`, rectangles and the strict AABB overlap test.
- `timer.dfy` (`Timers`):
  - the `Timer` class, updated in place;
  - its abstract value `TimerState`, and `Tick` for one frame of `update`;
  - lemmas over whole runs of frames.
- `obstacle.dfy` (`Obstacles`): `Obstacle` as a value, with scrolling, the off-screen
  test and spawning.
- `player.dfy` (`Players`):
  - the `Player` class, with its invincibility `Timer` object;
  - the pure `Move` for the jump, gravity and floor-clamp physics of one frame.
- `world.dfy` (`Worlds`):
  - the `World` class;
  - the scroll loop and the erase-while-iterating loop, as methods on sequences;
  - the filter `OnScreen` that specifies the erase loop, and its lemmas;
  - `WorldSnapshot`, the world's state as a value, with `NewRound` for `World::Init` and
    `FrameStep` for one frame of `World::Update`.
- `game.dfy` (`Games`):
  - the `Game` class, with the `Playing`/`GameOver` switch (`Step`) and the frame loop
    (`Run`);
  - their value counterparts `StepSnapshot` and `RunFrames`, and lemmas over runs.

The process-wide globals `Lives`, `Score` and `GAME_STATE` are fields of `World`. The
methods that change the world are proved against the snapshot functions:

- `World.Update` and `World.Init` leave the snapshot `FrameStep` and `NewRound` of the old one;
- `Game.Step` leaves it `StepSnapshot` of the old one;
- `Game.Run` leaves it `RunFrames` of the new round over the frames.

The game invariant is `GameInvariant`: lives stay between 0 and 3, the score is never
negative, and a game in play has a life left. It is part of `Game.Valid` and is kept by
every step. The raylib queries are parameters:

- `GetFrameTime()` is `dt: real`;
- `IsKeyPressed(KEY_SPACE)` is a `bool`;
- `GetRandomValue(1, 2)` is an `int` `r` with `1 <= r <= 2`. That bound is the library's
  promise. It is the only `requires` on `World.Update` besides the world invariant
  `Valid()`.

Positions, velocities and times are exact `real`s.

Three facts about `dodge.cpp` that the model makes explicit:

- A spawned obstacle is 20 wide, starts at x = 1000 and moves 400/60 per frame. The
  off-screen test `pos.x < 0 - size.x` is strict and counts the obstacle's width. In exact
  arithmetic the obstacle is off-screen after exactly 154 frames
  (`Obstacles.SpawnedObstacleLeavesAfter154Frames`): after 153 frames its right edge sits
  exactly on the left boundary. The program uses single-precision floats. It subtracts
  6.6666665 and rounds after every frame, which leaves `pos.x` near -20.0012 after 153
  frames, so the program removes the obstacle one frame earlier, after 153.
- `World::Init` resets and starts the spawn timer but does not restore its first duration
  of 4 seconds. The first round of `Game::Run` counts down the 4 s the timer was
  created with, since the timer has not yet fired. A round restarted after game over
  counts down the last random duration (0.5 or 1.5 s), because losing three lives takes at
  least one spawned obstacle. `World.Init` says so.
- `Player::invincible` has no initialiser. `World()` and `World::Init` build the player as
  `player()` and `Player()`, which value-initialise it, so it starts `false`.

## Model

| member | source | states |
|---|---|---|
| `Geometry.OverlapsSymmetric` | dodge.cpp:154-158 | the collision test gives the same answer with the two rectangles swapped |
| `Geometry.TouchingDoesNotOverlap` | dodge.cpp:154-158 | rectangles that only share an edge line or a corner do not collide: all four comparisons are strict |
| `Geometry.OverlapsIffCommonInteriorPoint` | dodge.cpp:154-158 | for rectangles with area, the four-comparison test holds exactly when some point lies strictly inside both |
| `Timers.Tick` | dodge.cpp:37-51 | a paused timer is unchanged; otherwise `remaining` drops by exactly `dt`, `running` stays on only while `remaining > 0`, and `done` latches once `remaining <= 0`; `time` never changes |
| `Timers.StoppedTimerIgnoresFrames` | dodge.cpp:37-51 | a timer that is not running (paused or fired) is left as it is by any number of frames and never fires |
| `Timers.FiresAtMostOnce` | dodge.cpp:37-51 | without a reset or start in between, a timer fires at most once over any run of frames |
| `Timers.FiresWhenTimeElapsed` | dodge.cpp:37-51 | a running, not yet fired timer with `remaining > 0` is done after non-negative frame times exactly when their sum reaches `remaining`, and has then fired exactly once |
| `Timers.RestartedFiresAfterDuration` | dodge.cpp:37-67 | a timer reset and started with duration `D > 0` fires once, exactly when `D` seconds have elapsed, and not before |
| `Timers.Timer.constructor` | dodge.cpp:35 | a new timer counts down its full duration, running and not done |
| `Timers.Timer.Update` | dodge.cpp:37-51 | the timer's new state is one `Tick` of its old state by the frame time |
| `Timers.Timer.Start` | dodge.cpp:53-56 | only `running` changes, to true |
| `Timers.Timer.Pause` | dodge.cpp:58-61 | only `running` changes, to false |
| `Timers.Timer.Reset` | dodge.cpp:63-67 | `remaining` becomes `time` and `done` false; `time` and `running` are unchanged |
| `Timers.Timer.SetTime` | dodge.cpp:69-72 | only `time` changes; `remaining` and `done` keep their values until the next reset |
| `Obstacles.Spawn` | dodge.cpp:81-85 | a new obstacle has the given size, stands at the right screen edge (x = 1000) and rests on the floor (`pos.y + size.y == FLOOR_Y`) |
| `Obstacles.Obstacle.OffScreen` | dodge.cpp:97-100 | an obstacle counted as off-screen shares no point with the 1000x400 screen |
| `Obstacles.Obstacle.Scrolled` | dodge.cpp:87-90 | one update moves the obstacle left by exactly `OBSTACLE_SPEED`; its `y` and size are unchanged |
| `Obstacles.ScrolledTimesPosition` | dodge.cpp:87-90 | after `n` updates an obstacle has moved exactly `n * OBSTACLE_SPEED` left and nothing else changed |
| `Obstacles.SpawnedObstacleLeavesAfter154Frames` | dodge.cpp:81-100 | in exact arithmetic, a spawned 20x40 obstacle is off-screen after `n` updates exactly when `n >= 154` (the float program crosses at 153) |
| `Obstacles.ScrollingKeepsObstacleOnFloor` | dodge.cpp:81-90 | an obstacle resting on the floor still rests on it after any number of updates |
| `Players.Move` | dodge.cpp:124-138 | after one frame the player is never below the floor and `x` is unchanged; if the unclamped height (old `y` plus launch velocity plus gravity) would put it below the floor it lands (on the floor, `vel.y == 0`, may jump); otherwise velocity was integrated into position, with the jump impulse only when the key was pressed and `canJump` held, and a jump clears `canJump` |
| `Players.MovePreservesGrounded` | dodge.cpp:124-138 | if the player can only jump while resting on the floor, that stays so after a frame |
| `Players.JumpFromRest` | dodge.cpp:124-138 | a player at rest on the floor with the key pressed leaves with velocity `-12.5 + gravity` and loses `canJump`; without the key it stays exactly where it is |
| `Players.NoJumpWithoutKeyAndGround` | dodge.cpp:124-138 | without the key, or without `canJump`, the player lands exactly when falling under gravity alone would take it below the floor, and otherwise gravity is the only change to its vertical velocity and it moves by that velocity |
| `Players.Player.constructor` | dodge.cpp:106-114 | a new player stands on the floor at (80, FLOOR_Y - 30), at rest, unable to jump and not invincible, with a fresh 2.5 s invincibility timer |
| `Players.Player.Update` | dodge.cpp:117-147 | the motion is `Move` of the old motion; while invincible the timer ticks once and invincibility ends exactly when it fires; otherwise the timer is untouched; the floor and grounding invariants are kept |
| `Players.Player.CheckCollision` | dodge.cpp:154-158 | for an obstacle with area, the test holds exactly when some point lies strictly inside both the player and the obstacle |
| `Players.Player.CollidedWithObstacle` | dodge.cpp:160-169 | if not invincible, lives drop by exactly one, the player becomes invincible and its timer is reset and running; if already invincible nothing changes |
| `Worlds.OnScreen` | dodge.cpp:225-237 | filtering never lengthens the list and keeps no off-screen obstacle |
| `Worlds.OnScreenLength` | dodge.cpp:225-237 | the filter drops exactly as many obstacles as are off-screen |
| `Worlds.OnScreenMultiplicity` | dodge.cpp:225-237 | every on-screen obstacle is kept as often as it occurs and every off-screen one is dropped, so no obstacle next to a removed one is skipped |
| `Worlds.OnScreenAppend` | dodge.cpp:225-237 | filtering a concatenation filters each part in place, so kept obstacles keep their relative order |
| `Worlds.OnScreenKeepsOnScreenList` | dodge.cpp:225-237 | a list with nothing off-screen is left exactly as it is |
| `Worlds.OnScreenIdempotent` | dodge.cpp:225-237 | a second pruning pass changes nothing |
| `Worlds.EraseLoopStep` | dodge.cpp:226-236 | in the erase loop the iterator points at the next unvisited original obstacle; erasing it (off-screen) or stepping past it (on-screen) extends the filtered prefix by exactly that obstacle |
| `Worlds.UpdateObstacles` | dodge.cpp:219-222 | every obstacle, in order, moves left by exactly `OBSTACLE_SPEED` with `y` and size unchanged |
| `Worlds.RemoveOffScreenObstacles` | dodge.cpp:224-237 | the erase loop leaves exactly the filtered list `OnScreen` (original order, none off-screen) and adds one point per off-screen obstacle, which with `OnScreenLength` is one point per erased obstacle |
| `Worlds.ScrollPruneWellPlaced` | dodge.cpp:219-237 | after scrolling and pruning, every obstacle is still on-screen, of the spawn size and resting on the floor |
| `Worlds.World.constructor` | dodge.cpp:200-202 | a new world has a new player, no obstacles, a running 4 s spawn timer, score 0, 3 lives and state `Playing` |
| `Worlds.NewRound` | dodge.cpp:204-212 | a new round has no obstacles, score 0, 3 lives, a grounded player that is not invincible, and the spawn timer running, not done, with its full last duration to go; the game state is kept |
| `Worlds.FrameStep` | dodge.cpp:214-259 | one frame loses at most one life, and a lost life leaves the player invincible; the score never falls; at most one obstacle is added; the game is over afterwards exactly when it was over before or lives reached 0 |
| `Worlds.World.Init` | dodge.cpp:204-212 | score 0, 3 lives, a new player, no obstacles, and the spawn timer reset and running (not done) with its last duration; the game state is untouched; the snapshot is `NewRound` of the old one |
| `Worlds.World.CheckPlayerCollisionWithObstacles` | dodge.cpp:188-197 | if some obstacle overlaps a vulnerable player, lives drop by exactly one and the player becomes invincible with a restarted timer; otherwise nothing changes, so one pass costs at most one life |
| `Worlds.World.ScrollAndPrune` | dodge.cpp:218-237 | the obstacle list becomes the on-screen part of the scrolled list, and the score grows by the number of obstacles that scrolled off |
| `Worlds.World.SpawnIfDue` | dodge.cpp:239-251 | the spawn timer ticks once; if it fired, one 20x40 obstacle is appended at the end and the timer restarts, running and not done, with duration `r - 0.5` (0.5 or 1.5 s); otherwise nothing is appended |
| `Worlds.World.Update` | dodge.cpp:214-259 | one frame (`FrameAdvanced`: the same player, and the snapshot is `FrameStep` of the old one): player physics by `Move`; scroll, prune and score; spawn; lives drop by one exactly when a player vulnerable after its own update overlaps an obstacle (never by more), and it is then invincible with a restarted timer; otherwise the invincibility flag and timer are those of the player's own update (ticked while invincible, untouched otherwise); the state becomes `GameOver` when lives reach 0 and is otherwise unchanged |
| `Games.Game.constructor` | dodge.cpp:286 | the game starts in `Playing` with a new world (`World()` at dodge.cpp:200-202, with the globals' start values at dodge.cpp:14-23): score 0, 3 lives, no obstacles, the player in its initial state and the spawn timer running with 4 s to go; the game invariant holds |
| `Games.StepSnapshot` | dodge.cpp:320-332 | one step keeps the game invariant; play resumes after game over only on a press of space, with full lives; without the press nothing changes; in play lives drop by at most one |
| `Games.RunKeepsInvariant` | dodge.cpp:297-333 | over any run of frames the game invariant holds at the end: lives between 0 and 3, score not negative, a life left while in play |
| `Games.GameOverWaitsForSpace` | dodge.cpp:325-331 | after game over, any run of frames without a press of space leaves the world exactly as it was |
| `Games.NoRestartNoNewLives` | dodge.cpp:320-332 | over a run of frames without a press of space, lives never go up and the score never goes down |
| `Games.Game.Init` | dodge.cpp:288-295 | the world starts a new round (its snapshot is `NewRound` of the old one): score 0, 3 lives, no obstacles, a new player in its initial state, and the spawn timer reset and running with its last duration; the game state is untouched |
| `Games.Game.Step` | dodge.cpp:320-332 | the world's snapshot becomes `StepSnapshot` of the old one. In play, the world advances exactly one frame of `World.Update` (`FrameAdvanced` with the frame's time, space key and roll): the score does not fall, lives drop by at most one, and the game is over exactly when lives are 0. After game over, a space press starts a new round via `World.Init` and resumes play; without it nothing changes. Play resumes only after a press, with full lives |
| `Games.Game.Run` | dodge.cpp:297-333 | after a first new round, every frame is one `Game.Step`: the final snapshot is `RunFrames` of the new round over the frames; the game invariant holds, the player is a new object, and with no frames the world is exactly the new round of `Game.Init` |

`Players.Player.CheckCollision` is the predicate `Players.Collides` on the player's
position. `Collides` is `Geometry.Overlaps` on the two rectangles, and the `Geometry`
lemmas above state its properties.

## Left out

- Drawing and window plumbing are not modelled: every `Draw` method, `DrawFloor`, the
  score and lives text (`sprintf`, dodge.cpp:261-276), the drawing half of `Game::Run`
  (dodge.cpp:303-318), `InitWindow`, `SetExitKey`, `SetTargetFPS` and
  `WindowShouldClose`. They are I/O through raylib. `Game.Run` takes the frames the
  library would deliver before the window closes as a sequence.
- raylib's `GetFrameTime`, `IsKeyPressed` and `GetRandomValue` are inputs, not behaviour.
  raylib is not part of this model.
- IEEE single-precision rounding is not modelled. Values are exact reals, so the exact
  equalities proved here (for example `remaining` dropping by exactly `dt`) hold for
  reals, not for the C++ floats.
- `Obstacles.SpawnedObstacleLeavesAfter154Frames`: the count of 154 frames holds in exact
  arithmetic. With single-precision rounding the program removes a spawned obstacle
  after 153 frames.
- `Player::rotation` and `Player::rotating` are not modelled. `rotating` is never set to
  true and `rotation` is read by no logic.
- `Game::running` and `Game::camera` are not modelled. Neither affects the game logic.
- `dodge.c` is not part of this model. It is an earlier, non-compiling variant of the same
  game with a hand-linked obstacle list.
- `Obstacles.Obstacle.Scrolled`: `std::vector` holds obstacles by value, so an obstacle is
  a Dafny value. The in-place `ob.Update()` of the scroll loop becomes a replacement of
  the list element, so there is no aliasing between obstacles to model.
- `Worlds.UpdateObstacles` and `Worlds.RemoveOffScreenObstacles`: the scroll loop and the
  erase-while-iterating loop of `World::Update` are methods on the obstacle sequence. The
  erase loop erases at the iterator index and advances only past kept elements, as
  `vector::erase` does. `World.ScrollAndPrune` stores their results back in the world's
  fields.
- `Worlds.World.Update` is split into `ScrollAndPrune` and `SpawnIfDue`, called in the
  source's order between the player update and the collision pass.
- `Players.Player.CollidedWithObstacle` takes the global `Lives` as an argument and
  returns its new value, because the global is a field of `World` here.
