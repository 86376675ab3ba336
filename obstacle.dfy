/** Obstacles: rectangles that appear at the right screen edge on the floor and scroll left. */
module Obstacles {
  import opened Screen
  import opened Geometry

  /** Extent of every obstacle the world spawns. */
  const SPAWN_SIZE: Vec2 := Vec2(20.0, 40.0)

  datatype Obstacle = Obstacle(pos: Vec2, size: Vec2) {

    /** One frame of scrolling: the obstacle moves left by the fixed per-frame speed. */
    function Scrolled(): (r: Obstacle)
      ensures r.pos.x == pos.x - OBSTACLE_SPEED
      ensures r.pos.y == pos.y && r.size == size
    {
      this.(pos := pos.(x := pos.x - OBSTACLE_SPEED))
    }

    /**
     * The obstacle's right edge is strictly left of the screen's left boundary, so it
     * shares no point with the screen.
     */
    predicate OffScreen(): (r: bool)
      ensures r ==> !Overlaps(Bounds(), Rect(Vec2(0.0, 0.0), Vec2(SCREEN_WIDTH as real, SCREEN_HEIGHT as real)))
    {
      pos.x < 0.0 - size.x
    }

    function Bounds(): Rect
    {
      Rect(pos, size)
    }
  }

  /** A new obstacle of the given extent: at the right screen edge, resting on the floor. */
  function Spawn(size: Vec2): (o: Obstacle)
    ensures o.pos.x == SCREEN_WIDTH as real
    ensures o.pos.y + o.size.y == FLOOR_Y
    ensures o.size == size
  {
    Obstacle(Vec2(SCREEN_WIDTH as real, FLOOR_Y - size.y), size)
  }

  /** The obstacle after `n` frames of scrolling. */
  function ScrolledTimes(o: Obstacle, n: nat): Obstacle
  {
    if n == 0 then o else ScrolledTimes(o, n - 1).Scrolled()
  }

  /** After `n` frames an obstacle has moved exactly `n` speed steps left and nothing else. */
  lemma {:induction false} ScrolledTimesPosition(o: Obstacle, n: nat)
    ensures ScrolledTimes(o, n) == o.(pos := o.pos.(x := o.pos.x - n as real * OBSTACLE_SPEED))
  {
    if n > 0 {
      ScrolledTimesPosition(o, n - 1);
    }
  }

  /**
   * In exact arithmetic a spawned obstacle is off-screen after exactly 154 frames: at 153
   * frames its right edge sits on the left boundary, which the strict test does not
   * count. The C++ program subtracts the single-precision speed 6.6666665 and rounds
   * after every frame; that leaves `pos.x` near -20.0012 after 153 frames, so the
   * program removes the obstacle one frame earlier.
   */
  lemma SpawnedObstacleLeavesAfter154Frames(n: nat)
    ensures ScrolledTimes(Spawn(SPAWN_SIZE), n).OffScreen() <==> n >= 154
  {
    ScrolledTimesPosition(Spawn(SPAWN_SIZE), n);
    if n >= 154 {
      assert n as real * OBSTACLE_SPEED >= 154.0 * OBSTACLE_SPEED;
    } else {
      assert n as real * OBSTACLE_SPEED <= 153.0 * OBSTACLE_SPEED;
    }
  }

  /** Scrolling never moves an obstacle off the floor line it was spawned on. */
  lemma {:induction false} ScrollingKeepsObstacleOnFloor(o: Obstacle, n: nat)
    requires o.pos.y + o.size.y == FLOOR_Y
    ensures ScrolledTimes(o, n).pos.y + ScrolledTimes(o, n).size.y == FLOOR_Y
  {
    ScrolledTimesPosition(o, n);
  }
}
