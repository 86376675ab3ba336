/** The world: the player, the ordered obstacle list, the spawn timer, score, lives and game state. */
module Worlds {
  import opened Screen
  import opened Geometry
  import opened Timers
  import opened Obstacles
  import opened Players

  datatype GameState = Playing | GameOver

  const START_LIVES: int := 3
  /** Duration the spawn timer is created with. */
  const FIRST_SPAWN_SECONDS: real := 4.0

  /** Every obstacle scrolled by one frame, in order. */
  function ScrolledAll(obstacles: seq<Obstacle>): (r: seq<Obstacle>)
    ensures |r| == |obstacles|
  {
    seq(|obstacles|, k requires 0 <= k < |obstacles| => obstacles[k].Scrolled())
  }

  /** The obstacles that are not off-screen, in their original relative order. */
  function OnScreen(obstacles: seq<Obstacle>): (r: seq<Obstacle>)
    ensures |r| <= |obstacles|
    ensures forall k :: 0 <= k < |r| ==> !r[k].OffScreen()
    decreases |obstacles|
  {
    if obstacles == [] then []
    else
      var last := obstacles[|obstacles| - 1];
      OnScreen(obstacles[..|obstacles| - 1]) + (if last.OffScreen() then [] else [last])
  }

  /** The number of off-screen obstacles. */
  function OffScreenCount(obstacles: seq<Obstacle>): nat
    decreases |obstacles|
  {
    if obstacles == [] then 0
    else
      OffScreenCount(obstacles[..|obstacles| - 1]) +
      (if obstacles[|obstacles| - 1].OffScreen() then 1 else 0)
  }

  /** Filtering drops exactly the off-screen obstacles. */
  lemma {:induction false} OnScreenLength(obstacles: seq<Obstacle>)
    ensures |OnScreen(obstacles)| == |obstacles| - OffScreenCount(obstacles)
    decreases |obstacles|
  {
    if obstacles != [] {
      OnScreenLength(obstacles[..|obstacles| - 1]);
    }
  }

  /**
   * Every on-screen obstacle is kept as often as it occurs, and no off-screen one is:
   * no obstacle next to a removed one is skipped.
   */
  lemma {:induction false} OnScreenMultiplicity(obstacles: seq<Obstacle>, o: Obstacle)
    ensures multiset(OnScreen(obstacles))[o] == if o.OffScreen() then 0 else multiset(obstacles)[o]
    decreases |obstacles|
  {
    if obstacles != [] {
      var init, last := obstacles[..|obstacles| - 1], obstacles[|obstacles| - 1];
      assert obstacles == init + [last];
      OnScreenMultiplicity(init, o);
    }
  }

  /** Filtering works piecewise, so it keeps the relative order of what it keeps. */
  lemma {:induction false} OnScreenAppend(a: seq<Obstacle>, b: seq<Obstacle>)
    ensures OnScreen(a + b) == OnScreen(a) + OnScreen(b)
    decreases |b|
  {
    if b == [] {
      assert a + b == a;
    } else {
      var init, last := b[..|b| - 1], b[|b| - 1];
      assert (a + b)[..|a + b| - 1] == a + init;
      OnScreenAppend(a, init);
    }
  }

  /** A list with nothing off-screen is left as it is, so filtering is idempotent. */
  lemma {:induction false} OnScreenKeepsOnScreenList(obstacles: seq<Obstacle>)
    requires forall k :: 0 <= k < |obstacles| ==> !obstacles[k].OffScreen()
    ensures OnScreen(obstacles) == obstacles
    decreases |obstacles|
  {
    if obstacles != [] {
      var init := obstacles[..|obstacles| - 1];
      OnScreenKeepsOnScreenList(init);
      assert obstacles == init + [obstacles[|obstacles| - 1]];
    }
  }

  lemma OnScreenIdempotent(obstacles: seq<Obstacle>)
    ensures OnScreen(OnScreen(obstacles)) == OnScreen(obstacles)
  {
    OnScreenKeepsOnScreenList(OnScreen(obstacles));
  }

  /** Extending a prefix by one obstacle extends its filtered part and its count by that obstacle. */
  lemma PrefixStep(obstacles: seq<Obstacle>, j: nat)
    requires j < |obstacles|
    ensures OnScreen(obstacles[..j + 1]) ==
            OnScreen(obstacles[..j]) + (if obstacles[j].OffScreen() then [] else [obstacles[j]])
    ensures OffScreenCount(obstacles[..j + 1]) ==
            OffScreenCount(obstacles[..j]) + (if obstacles[j].OffScreen() then 1 else 0)
  {
    assert obstacles[..j + 1][..j] == obstacles[..j];
  }

  /**
   * The erase branch of the erase loop. The list is `done` (the filtered first `j`
   * obstacles) followed by the unvisited rest, and the iterator at index `|done|` points
   * at `obstacles[j]`; erasing it there leaves the filtered first `j + 1` and the rest.
   */
  lemma EraseStep(obstacles: seq<Obstacle>, j: nat, done: seq<Obstacle>)
    requires j < |obstacles| && done == OnScreen(obstacles[..j]) && obstacles[j].OffScreen()
    ensures var kept := done + obstacles[j..];
            |done| < |kept| && kept[|done|] == obstacles[j] &&
            kept[..|done|] + kept[|done| + 1..] == OnScreen(obstacles[..j + 1]) + obstacles[j + 1..]
  {
    PrefixStep(obstacles, j);
    var kept := done + obstacles[j..];
    assert kept[..|done|] == done;
    assert kept[|done| + 1..] == obstacles[j + 1..];
  }

  /** The step-over branch of the erase loop: an on-screen `obstacles[j]` joins the filtered part. */
  lemma SkipStep(obstacles: seq<Obstacle>, j: nat, done: seq<Obstacle>)
    requires j < |obstacles| && done == OnScreen(obstacles[..j]) && !obstacles[j].OffScreen()
    ensures var kept := done + obstacles[j..];
            |done| < |kept| && kept[|done|] == obstacles[j] &&
            kept == OnScreen(obstacles[..j + 1]) + obstacles[j + 1..] &&
            |done| + 1 == |OnScreen(obstacles[..j + 1])|
  {
    PrefixStep(obstacles, j);
    assert obstacles[j..] == [obstacles[j]] + obstacles[j + 1..];
  }

  /**
   * One iteration of the erase loop, with the iterator at index `i` of `kept` after it has
   * passed the first `j` original obstacles: it points at `obstacles[j]`, and erasing it
   * (when off-screen) or stepping over it (otherwise) gives the state after `j + 1`.
   */
  lemma EraseLoopStep(obstacles: seq<Obstacle>, j: nat, kept: seq<Obstacle>, i: nat)
    requires j < |obstacles|
    requires kept == OnScreen(obstacles[..j]) + obstacles[j..] && i == |OnScreen(obstacles[..j])|
    ensures i < |kept| && kept[i] == obstacles[j]
    ensures obstacles[j].OffScreen() ==>
              kept[..i] + kept[i + 1..] == OnScreen(obstacles[..j + 1]) + obstacles[j + 1..] &&
              i == |OnScreen(obstacles[..j + 1])| &&
              OffScreenCount(obstacles[..j + 1]) == OffScreenCount(obstacles[..j]) + 1
    ensures !obstacles[j].OffScreen() ==>
              kept == OnScreen(obstacles[..j + 1]) + obstacles[j + 1..] &&
              i + 1 == |OnScreen(obstacles[..j + 1])| &&
              OffScreenCount(obstacles[..j + 1]) == OffScreenCount(obstacles[..j])
  {
    PrefixStep(obstacles, j);
    if obstacles[j].OffScreen() {
      EraseStep(obstacles, j, OnScreen(obstacles[..j]));
    } else {
      SkipStep(obstacles, j, OnScreen(obstacles[..j]));
    }
  }

  /** The scrolling loop of `World::Update`: every obstacle moves one frame left. */
  method UpdateObstacles(obstacles: seq<Obstacle>) returns (moved: seq<Obstacle>)
    ensures |moved| == |obstacles|
    ensures forall k :: 0 <= k < |obstacles| ==>
              moved[k].pos.x == obstacles[k].pos.x - OBSTACLE_SPEED &&
              moved[k].pos.y == obstacles[k].pos.y && moved[k].size == obstacles[k].size
    ensures moved == ScrolledAll(obstacles)
  {
    moved := obstacles;
    for i := 0 to |moved|
      invariant |moved| == |obstacles|
      invariant forall k :: 0 <= k < i ==> moved[k] == obstacles[k].Scrolled()
      invariant forall k :: i <= k < |moved| ==> moved[k] == obstacles[k]
    {
      moved := moved[i := moved[i].Scrolled()];
    }
  }

  /**
   * The erase-while-iterating loop of `World::Update`: an off-screen obstacle is erased
   * and the iterator stays on the element that slid into its place; otherwise the
   * iterator advances. Each erase adds one to the score.
   */
  method RemoveOffScreenObstacles(obstacles: seq<Obstacle>, score: int) returns (kept: seq<Obstacle>, newScore: int)
    ensures kept == OnScreen(obstacles)
    ensures newScore == score + OffScreenCount(obstacles)
  {
    kept, newScore := obstacles, score;
    var i := 0;
    ghost var j := 0;  // how many of the original obstacles the iterator has passed
    while i < |kept|
      invariant 0 <= j <= |obstacles|
      invariant kept == OnScreen(obstacles[..j]) + obstacles[j..]
      invariant i == |OnScreen(obstacles[..j])|
      invariant newScore == score + OffScreenCount(obstacles[..j])
      decreases |kept| - i
    {
      EraseLoopStep(obstacles, j, kept, i);
      if kept[i].OffScreen() {
        kept := kept[..i] + kept[i + 1..];
        newScore := newScore + 1;
      } else {
        i := i + 1;
      }
      j := j + 1;
    }
    assert obstacles[..j] == obstacles;
  }

  /** Every obstacle is on-screen, of the spawn size and resting on the floor. */
  predicate WellPlaced(obstacles: seq<Obstacle>)
  {
    forall k :: 0 <= k < |obstacles| ==>
      !obstacles[k].OffScreen() &&
      obstacles[k].size == SPAWN_SIZE && obstacles[k].pos.y + SPAWN_SIZE.y == FLOOR_Y
  }

  /**
   * A frame's scrolling and pruning keep the obstacle list well placed: obstacles stay on
   * the floor, and none that is off-screen survives.
   */
  lemma ScrollPruneWellPlaced(obstacles: seq<Obstacle>)
    requires WellPlaced(obstacles)
    ensures WellPlaced(OnScreen(ScrolledAll(obstacles)))
  {
    var moved := ScrolledAll(obstacles);
    var kept := OnScreen(moved);
    forall k | 0 <= k < |kept|
      ensures kept[k].size == SPAWN_SIZE && kept[k].pos.y + SPAWN_SIZE.y == FLOOR_Y
    {
      OnScreenMultiplicity(moved, kept[k]);
      assert kept[k] in multiset(kept);
      var j :| 0 <= j < |moved| && moved[j] == kept[k];
    }
  }

  /** Some obstacle overlaps a player standing at `pos`. */
  predicate HitsAny(pos: Vec2, obstacles: seq<Obstacle>)
  {
    exists k :: 0 <= k < |obstacles| && Collides(pos, obstacles[k])
  }

  /**
   * Everything about a world that a frame reads or changes, as a value: the player's
   * motion, invincibility flag and timer, the obstacles, the spawn timer, score, lives and
   * game state.
   */
  datatype WorldSnapshot = WorldSnapshot(
    motion: Motion, invincible: bool, invincibilityTimer: TimerState,
    obstacles: seq<Obstacle>, spawnTimer: TimerState,
    score: int, lives: int, state: GameState)

  /**
   * The world after `World::Init`: a new player, no obstacles, the spawn timer reset and
   * running with the duration it last had, score 0 and full lives; the game state is kept.
   */
  function NewRound(s: WorldSnapshot): (r: WorldSnapshot)
    ensures r.obstacles == [] && r.score == 0 && r.lives == START_LIVES && r.state == s.state
    ensures Grounded(r.motion) && !r.invincible
    ensures r.spawnTimer.running && !r.spawnTimer.done && r.spawnTimer.remaining == s.spawnTimer.time
  {
    WorldSnapshot(
      Motion(PLAYER_START, Vec2(0.0, 0.0), false), false, Restarted(INVINCIBILITY_SECONDS),
      [], Restarted(s.spawnTimer.time), 0, START_LIVES, s.state)
  }

  /**
   * One frame of `World::Update` on a snapshot, with frame time `dt`, jump key
   * `jumpPressed` and random roll `r`, in the source's order: the player moves (and its
   * invincibility timer ticks while invincible), the obstacles scroll and the off-screen
   * ones are erased for a point each, the spawn timer ticks and may append an obstacle,
   * and a player that is then vulnerable and overlaps an obstacle loses one life.
   */
  function FrameStep(s: WorldSnapshot, dt: real, jumpPressed: bool, r: int): (t: WorldSnapshot)
    ensures t.lives == s.lives || t.lives == s.lives - 1
    ensures t.lives < s.lives ==> t.invincible
    ensures t.score >= s.score
    ensures |t.obstacles| <= |s.obstacles| + 1
    ensures t.state == GameOver <==> t.lives == 0 || s.state == GameOver
  {
    var motion := Move(s.motion, jumpPressed);
    var ticked := if s.invincible then Tick(s.invincibilityTimer, dt) else s.invincibilityTimer;
    var vulnerable := !s.invincible || ticked.done;
    var scrolled := ScrolledAll(s.obstacles);
    var fired := Tick(s.spawnTimer, dt).done;
    var obstacles := OnScreen(scrolled) + (if fired then [Spawn(SPAWN_SIZE)] else []);
    var hit := vulnerable && HitsAny(motion.pos, obstacles);
    var lives := if hit then s.lives - 1 else s.lives;
    WorldSnapshot(
      motion, hit || !vulnerable,
      if hit then Restarted(s.invincibilityTimer.time) else ticked,
      obstacles, if fired then Restarted(r as real - 0.5) else Tick(s.spawnTimer, dt),
      s.score + OffScreenCount(scrolled), lives,
      if lives == 0 then GameOver else s.state)
  }

  class World {
    var player: Player
    var obstacles: seq<Obstacle>
    const spawnTimer: Timer
    var score: int
    var lives: int
    var state: GameState

    /**
     * The player is consistent, the spawn timer is always counting down between frames,
     * and every obstacle is on-screen, of the spawn size and resting on the floor.
     */
    ghost predicate Valid()
      reads this, player, player.invincibilityTimer, spawnTimer
    {
      player.invincibilityTimer != spawnTimer &&
      player.Valid() &&
      spawnTimer.running && !spawnTimer.done &&
      WellPlaced(obstacles)
    }

    function Snapshot(): WorldSnapshot
      reads this, player, player.invincibilityTimer, spawnTimer
    {
      WorldSnapshot(
        player.MotionState(), player.invincible, player.invincibilityTimer.State(),
        obstacles, spawnTimer.State(), score, lives, state)
    }

    /** Some obstacle overlaps the player. */
    ghost predicate PlayerHit()
      reads this, player
    {
      HitsAny(player.pos, obstacles)
    }

    /** A new world, with score, lives and game state at their program-start values. */
    constructor ()
      ensures Valid() && fresh(player) && fresh(player.invincibilityTimer) && fresh(spawnTimer)
      ensures player.Initial()
      ensures obstacles == [] && score == 0 && lives == START_LIVES && state == Playing
      ensures spawnTimer.State() == Restarted(FIRST_SPAWN_SECONDS)
    {
      player := new Player();
      obstacles := [];
      spawnTimer := new Timer(FIRST_SPAWN_SECONDS);
      score := 0;
      lives := START_LIVES;
      state := Playing;
    }

    /**
     * Starts a new round: score 0, full lives, a new player, no obstacles, and the spawn
     * timer reset and running with the duration it last had.
     */
    method Init()
      requires Valid()
      modifies this, spawnTimer
      ensures Valid() && fresh(player) && fresh(player.invincibilityTimer)
      ensures player.Initial()
      ensures score == 0 && lives == START_LIVES && obstacles == [] && state == old(state)
      ensures spawnTimer.State() == Restarted(old(spawnTimer.time))
      ensures Snapshot() == NewRound(old(Snapshot()))
    {
      score := 0;
      lives := START_LIVES;
      player := new Player();
      obstacles := [];
      spawnTimer.Reset();
      spawnTimer.Start();
    }

    /**
     * Tests the player against every obstacle and reports each hit to the player; since a
     * hit makes the player invincible, at most one life is lost.
     */
    method CheckPlayerCollisionWithObstacles()
      requires Valid()
      modifies this`lives, player`invincible, player.invincibilityTimer
      ensures Valid()
      ensures PlayerHit() && !old(player.invincible) ==>
                lives == old(lives) - 1 && player.invincible &&
                player.invincibilityTimer.State() == Restarted(old(player.invincibilityTimer.time))
      ensures !(PlayerHit() && !old(player.invincible)) ==>
                lives == old(lives) && player.invincible == old(player.invincible) &&
                player.invincibilityTimer.State() == old(player.invincibilityTimer.State())
    {
      ghost var hit := false;
      for i := 0 to |obstacles|
        invariant player.Valid() && player.pos == old(player.pos)
        invariant hit <==> exists k :: 0 <= k < i && Collides(player.pos, obstacles[k])
        invariant hit && !old(player.invincible) ==>
                    lives == old(lives) - 1 && player.invincible &&
                    player.invincibilityTimer.State() == Restarted(old(player.invincibilityTimer.time))
        invariant !(hit && !old(player.invincible)) ==>
                    lives == old(lives) && player.invincible == old(player.invincible) &&
                    player.invincibilityTimer.State() == old(player.invincibilityTimer.State())
      {
        if player.CheckCollision(obstacles[i]) {
          lives := player.CollidedWithObstacle(lives);
          hit := true;
          assert Collides(player.pos, obstacles[i]);
        }
      }
    }

    /** Scrolls every obstacle, then erases those off-screen, one point each. */
    method ScrollAndPrune()
      requires Valid()
      modifies this`obstacles, this`score
      ensures Valid()
      ensures obstacles == OnScreen(ScrolledAll(old(obstacles)))
      ensures score == old(score) + OffScreenCount(ScrolledAll(old(obstacles)))
    {
      ScrollPruneWellPlaced(obstacles);
      obstacles := UpdateObstacles(obstacles);
      obstacles, score := RemoveOffScreenObstacles(obstacles, score);
    }

    /**
     * Advances the spawn timer; when it fires, appends a new obstacle at the end of the
     * list and restarts the timer with the new duration `r - 0.5`.
     */
    method SpawnIfDue(dt: real, r: int)
      requires Valid() && 1 <= r <= 2
      modifies this`obstacles, spawnTimer
      ensures Valid()
      ensures var fired := Tick(old(spawnTimer.State()), dt).done;
              obstacles == old(obstacles) + (if fired then [Spawn(SPAWN_SIZE)] else []) &&
              spawnTimer.State() == if fired then Restarted(r as real - 0.5) else Tick(old(spawnTimer.State()), dt)
    {
      spawnTimer.Update(dt);
      if spawnTimer.done {
        var o := Spawn(SPAWN_SIZE);
        obstacles := obstacles + [o];

        spawnTimer.SetTime(r as real - 0.5);
        spawnTimer.Reset();
        spawnTimer.Start();
      }
    }

    /**
     * The world now is the world before advanced by one frame of play (`FrameStep`), with
     * the same player object.
     */
    twostate predicate FrameAdvanced(dt: real, jumpPressed: bool, r: int)
      reads this, player, player.invincibilityTimer, spawnTimer
    {
      player == old(player) && Snapshot() == FrameStep(old(Snapshot()), dt, jumpPressed, r)
    }

    /**
     * One frame of play: the player moves, the obstacles advance, collisions are checked,
     * and the game is over once no lives are left. `dt` is the frame time, `jumpPressed`
     * the jump key and `r` the random roll in 1..2.
     */
    method Update(dt: real, jumpPressed: bool, r: int)
      requires Valid() && 1 <= r <= 2
      modifies this, player, player.invincibilityTimer, spawnTimer
      ensures Valid() && player == old(player)
      ensures FrameAdvanced(dt, jumpPressed, r)
      ensures lives == old(lives) || lives == old(lives) - 1
      ensures PlayerHit() ==> player.invincible
    {
      ghost var before := Snapshot();
      player.Update(jumpPressed, dt);
      ghost var vulnerable := !player.invincible;
      assert vulnerable <==> !before.invincible || Tick(before.invincibilityTimer, dt).done;
      ScrollAndPrune();
      SpawnIfDue(dt, r);
      CheckPlayerCollisionWithObstacles();

      if lives == 0 {
        state := GameOver;
      }
      ghost var after := FrameStep(before, dt, jumpPressed, r);
      assert after.motion == player.MotionState();
      assert after.obstacles == obstacles;
      assert after.spawnTimer == spawnTimer.State();
      assert after.score == score;
      assert lives == before.lives - (if vulnerable && PlayerHit() then 1 else 0);
      assert after.lives == lives;
      assert after.invincible == player.invincible;
      assert after.invincibilityTimer == player.invincibilityTimer.State();
      assert after.state == state;
    }
  }
}
