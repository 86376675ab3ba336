/** The player: jump and gravity physics on the floor, invincibility after a hit, collision test. */
module Players {
  import opened Screen
  import opened Geometry
  import opened Timers
  import opened Obstacles

  const PLAYER_SIZE: Vec2 := Vec2(30.0, 30.0)
  const PLAYER_START: Vec2 := Vec2(80.0, FLOOR_Y - 30.0)
  /** Downward acceleration added to the vertical velocity every frame. */
  const GRAVITY: real := 50.0 / 60.0
  /** Vertical velocity a jump sets (negative is upwards). */
  const JUMP_VELOCITY: real := -12.5
  const INVINCIBILITY_SECONDS: real := 2.5

  /** The movement part of the player's state. */
  datatype Motion = Motion(pos: Vec2, vel: Vec2, canJump: bool)

  /** Standing on the floor, at rest. */
  predicate Resting(m: Motion)
  {
    m.pos.y + PLAYER_SIZE.y == FLOOR_Y && m.vel.y == 0.0
  }

  /** The player may only be able to jump while resting on the floor. */
  predicate Grounded(m: Motion)
  {
    m.canJump ==> Resting(m)
  }

  /** The vertical velocity at the start of a frame: the jump impulse if a jump happens. */
  function LaunchVelocity(m: Motion, jumpPressed: bool): real
  {
    if jumpPressed && m.canJump then JUMP_VELOCITY else m.vel.y
  }

  /** The height the player would reach this frame if there were no floor. */
  function UnclampedY(m: Motion, jumpPressed: bool): real
  {
    m.pos.y + LaunchVelocity(m, jumpPressed) + GRAVITY
  }

  /**
   * One frame of the player's physics: an optional jump, gravity, integration of the
   * velocity, and the clamp to the floor.
   */
  function Move(m: Motion, jumpPressed: bool): (r: Motion)
    ensures r.pos.y + PLAYER_SIZE.y <= FLOOR_Y
    ensures r.pos.x == m.pos.x && r.vel.x == m.vel.x
    // a player that would sink below the floor lands on it and may jump again ...
    ensures UnclampedY(m, jumpPressed) + PLAYER_SIZE.y > FLOOR_Y ==> Resting(r) && r.canJump
    // ... otherwise it flies freely: velocity integrated, and a jump spends the ability to jump
    ensures UnclampedY(m, jumpPressed) + PLAYER_SIZE.y <= FLOOR_Y ==>
              r.vel.y == LaunchVelocity(m, jumpPressed) + GRAVITY &&
              r.pos.y == m.pos.y + r.vel.y &&
              r.canJump == (m.canJump && !jumpPressed)
  {
    var vy := LaunchVelocity(m, jumpPressed) + GRAVITY;
    var y := m.pos.y + vy;
    if y + PLAYER_SIZE.y > FLOOR_Y then
      Motion(m.pos.(y := FLOOR_Y - PLAYER_SIZE.y), m.vel.(y := 0.0), true)
    else
      Motion(m.pos.(y := y), m.vel.(y := vy), m.canJump && !jumpPressed)
  }

  /** Only a resting player can jump, so the ability to jump is never gained in the air. */
  lemma MovePreservesGrounded(m: Motion, jumpPressed: bool)
    requires Grounded(m)
    ensures Grounded(Move(m, jumpPressed))
  {
  }

  /**
   * A player resting on the floor with the jump key pressed leaves the floor with the jump
   * impulse (plus one frame of gravity) and loses the ability to jump; without the key it
   * stays where it is.
   */
  lemma JumpFromRest(m: Motion)
    requires Resting(m) && m.canJump
    ensures Move(m, true).vel.y == JUMP_VELOCITY + GRAVITY
    ensures Move(m, true).pos.y == m.pos.y + JUMP_VELOCITY + GRAVITY
    ensures !Move(m, true).canJump
    ensures Move(m, false) == m
  {
  }

  /**
   * A jump happens only when the key is pressed and the player could jump: otherwise the
   * player falls under gravity alone, and lands exactly when that fall would take it
   * below the floor.
   */
  lemma NoJumpWithoutKeyAndGround(m: Motion, jumpPressed: bool)
    requires !(jumpPressed && m.canJump)
    ensures var y := m.pos.y + m.vel.y + GRAVITY;
            if y + PLAYER_SIZE.y > FLOOR_Y then Resting(Move(m, jumpPressed))
            else Move(m, jumpPressed).vel.y == m.vel.y + GRAVITY && Move(m, jumpPressed).pos.y == y
  {
  }

  /** Strict AABB overlap of a player standing at `playerPos` with the obstacle. */
  predicate Collides(playerPos: Vec2, obstacle: Obstacle)
  {
    Overlaps(Rect(playerPos, PLAYER_SIZE), obstacle.Bounds())
  }

  class Player {
    var pos: Vec2
    const size: Vec2 := PLAYER_SIZE
    var vel: Vec2
    var canJump: bool
    const invincibilityTimer: Timer
    var invincible: bool

    function MotionState(): Motion
      reads this
    {
      Motion(pos, vel, canJump)
    }

    /**
     * The player never reaches below the floor, may only jump when resting on it, and
     * while invincible its invincibility timer is counting down.
     */
    ghost predicate Valid()
      reads this, invincibilityTimer
    {
      pos.y + size.y <= FLOOR_Y &&
      Grounded(MotionState()) &&
      (invincible ==> invincibilityTimer.running && !invincibilityTimer.done)
    }

    /** The player as a new game starts it. */
    ghost predicate Initial()
      reads this, invincibilityTimer
    {
      pos == PLAYER_START && vel == Vec2(0.0, 0.0) && !canJump && !invincible &&
      invincibilityTimer.State() == Restarted(INVINCIBILITY_SECONDS)
    }

    /**
     * The default member values. `invincible` has no initialiser, but `Player()` value-
     * initialises the object, so it starts false.
     */
    constructor ()
      ensures Valid() && Initial() && fresh(invincibilityTimer)
    {
      pos := PLAYER_START;
      vel := Vec2(0.0, 0.0);
      canJump := false;
      invincibilityTimer := new Timer(INVINCIBILITY_SECONDS);
      invincible := false;
    }

    /**
     * One frame: the physics of `Move`, then, while invincible, one tick of the
     * invincibility timer, which ends the invincibility when it fires.
     */
    method Update(jumpPressed: bool, dt: real)
      requires Valid()
      modifies this, invincibilityTimer
      ensures Valid()
      ensures MotionState() == Move(old(MotionState()), jumpPressed)
      ensures old(invincible) ==>
                invincibilityTimer.State() == Tick(old(invincibilityTimer.State()), dt) &&
                invincible == !invincibilityTimer.done
      ensures !old(invincible) ==>
                invincibilityTimer.State() == old(invincibilityTimer.State()) && !invincible
    {
      if jumpPressed && canJump {
        vel := vel.(y := JUMP_VELOCITY);
        canJump := false;
      }

      vel := vel.(y := vel.y + GRAVITY);
      pos := pos.(y := pos.y + vel.y);

      if pos.y + size.y > FLOOR_Y {
        pos := pos.(y := FLOOR_Y - size.y);
        vel := vel.(y := 0.0);
        canJump := true;
      }

      if invincible {
        invincibilityTimer.Update(dt);
        if invincibilityTimer.done {
          invincible := false;
        }
      }
    }

    /**
     * The collision test against one obstacle. For an obstacle with area it holds exactly
     * when some point lies strictly inside both the player and the obstacle.
     */
    predicate CheckCollision(obstacle: Obstacle): (r: bool)
      reads this
      ensures HasArea(obstacle.Bounds()) ==>
                (r <==> exists p :: Inside(p, Rect(pos, size)) && Inside(p, obstacle.Bounds()))
    {
      if HasArea(obstacle.Bounds()) then
        OverlapsIffCommonInteriorPoint(Rect(pos, size), obstacle.Bounds());
        Collides(pos, obstacle)
      else
        Collides(pos, obstacle)
    }

    /**
     * A hit: unless already invincible, the player loses one of `lives` and becomes
     * invincible with its timer restarted; while invincible a hit changes nothing.
     */
    method CollidedWithObstacle(lives: int) returns (newLives: int)
      requires Valid()
      modifies this`invincible, invincibilityTimer
      ensures Valid() && invincible
      ensures old(invincible) ==>
                newLives == lives && invincibilityTimer.State() == old(invincibilityTimer.State())
      ensures !old(invincible) ==>
                newLives == lives - 1 &&
                invincibilityTimer.State() == Restarted(old(invincibilityTimer.time))
    {
      newLives := lives;
      if !invincible {
        invincibilityTimer.Reset();
        invincibilityTimer.Start();
        invincible := true;
        newLives := newLives - 1;
      }
    }
  }
}
