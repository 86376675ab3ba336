/** The top-level game: one world and the Playing / GameOver state machine driven once per frame. */
module Games {
  import opened Timers
  import opened Obstacles
  import opened Players
  import opened Worlds

  /** What the frame loop reads from the library in one frame. */
  datatype Frame = Frame(dt: real, spacePressed: bool, spawnRoll: int)

  predicate ValidFrames(frames: seq<Frame>)
  {
    forall k :: 0 <= k < |frames| ==> 1 <= frames[k].spawnRoll <= 2
  }

  /**
   * Lives stay between 0 and the starting count, a game in play has a life left, and
   * the score never goes negative.
   */
  predicate GameInvariant(s: WorldSnapshot)
  {
    0 <= s.lives <= START_LIVES && s.score >= 0 && (s.state == Playing ==> s.lives > 0)
  }

  /**
   * The update half of one frame of `Game::Run` on a snapshot: in play the world advances
   * one frame; after the game is over, a press of space starts a new round and play
   * resumes, and without it nothing happens.
   */
  function StepSnapshot(s: WorldSnapshot, frame: Frame): (t: WorldSnapshot)
    ensures GameInvariant(s) ==> GameInvariant(t)
    ensures s.state == GameOver && t.state == Playing ==> frame.spacePressed && t.lives == START_LIVES
    ensures s.state == GameOver && !frame.spacePressed ==> t == s
    ensures s.state == Playing ==> t.lives == s.lives || t.lives == s.lives - 1
  {
    match s.state
    case Playing => FrameStep(s, frame.dt, frame.spacePressed, frame.spawnRoll)
    case GameOver => if frame.spacePressed then NewRound(s).(state := Playing) else s
  }

  /** The snapshot after one `StepSnapshot` per frame, in order. */
  function RunFrames(s: WorldSnapshot, frames: seq<Frame>): WorldSnapshot
    decreases |frames|
  {
    if frames == [] then s
    else StepSnapshot(RunFrames(s, frames[..|frames| - 1]), frames[|frames| - 1])
  }

  /** Over any run of frames the game invariant holds after every frame. */
  lemma {:induction false} RunKeepsInvariant(s: WorldSnapshot, frames: seq<Frame>)
    requires GameInvariant(s)
    ensures GameInvariant(RunFrames(s, frames))
    decreases |frames|
  {
    if frames != [] {
      RunKeepsInvariant(s, frames[..|frames| - 1]);
    }
  }

  /** After the game is over, nothing changes until space is pressed. */
  lemma {:induction false} GameOverWaitsForSpace(s: WorldSnapshot, frames: seq<Frame>)
    requires s.state == GameOver
    requires forall k :: 0 <= k < |frames| ==> !frames[k].spacePressed
    ensures RunFrames(s, frames) == s
    decreases |frames|
  {
    if frames != [] {
      GameOverWaitsForSpace(s, frames[..|frames| - 1]);
    }
  }

  /**
   * Without a press of space no new round starts, so over such a run lives never go up
   * and the score never goes down.
   */
  lemma {:induction false} NoRestartNoNewLives(s: WorldSnapshot, frames: seq<Frame>)
    requires forall k :: 0 <= k < |frames| ==> !frames[k].spacePressed
    ensures RunFrames(s, frames).lives <= s.lives
    ensures RunFrames(s, frames).score >= s.score
    decreases |frames|
  {
    if frames != [] {
      NoRestartNoNewLives(s, frames[..|frames| - 1]);
    }
  }

  class Game {
    const world: World

    /** The world is consistent and its snapshot keeps the game invariant. */
    ghost predicate Valid()
      reads this, world, world.player, world.player.invincibilityTimer, world.spawnTimer
    {
      world.Valid() && GameInvariant(world.Snapshot())
    }

    constructor ()
      ensures Valid() && fresh(world) && fresh(world.player) &&
              fresh(world.player.invincibilityTimer) && fresh(world.spawnTimer)
      ensures world.state == Playing
      ensures world.score == 0 && world.lives == START_LIVES && world.obstacles == []
      ensures world.player.Initial() && world.spawnTimer.State() == Restarted(FIRST_SPAWN_SECONDS)
    {
      world := new World();
    }

    /** The game logic of `Game::Init`: a new round in the world. */
    method Init()
      requires Valid()
      modifies world, world.spawnTimer
      ensures Valid() && fresh(world.player) && fresh(world.player.invincibilityTimer)
      ensures world.player.Initial()
      ensures world.score == 0 && world.lives == START_LIVES && world.obstacles == []
      ensures world.spawnTimer.State() == Restarted(old(world.spawnTimer.time))
      ensures world.state == old(world.state)
      ensures world.Snapshot() == NewRound(old(world.Snapshot()))
    {
      world.Init();
    }

    /**
     * The update half of one frame: in play the world advances one frame; after the
     * game is over, a press of space starts a new round and play resumes.
     */
    method Step(frame: Frame)
      requires Valid() && 1 <= frame.spawnRoll <= 2
      modifies world, world.player, world.player.invincibilityTimer, world.spawnTimer
      ensures Valid()
      ensures world.Snapshot() == StepSnapshot(old(world.Snapshot()), frame)
      ensures old(world.state) == Playing ==>
                world.player == old(world.player) &&
                world.FrameAdvanced(frame.dt, frame.spacePressed, frame.spawnRoll) &&
                world.score >= old(world.score) &&
                (world.lives == old(world.lives) || world.lives == old(world.lives) - 1) &&
                (world.state == GameOver <==> world.lives == 0)
      ensures old(world.state) == GameOver && frame.spacePressed ==>
                world.state == Playing && world.player.Initial() &&
                fresh(world.player) && fresh(world.player.invincibilityTimer) &&
                world.score == 0 && world.lives == START_LIVES && world.obstacles == [] &&
                world.spawnTimer.State() == Restarted(old(world.spawnTimer.time))
      ensures old(world.state) == GameOver && !frame.spacePressed ==>
                world.state == GameOver && world.player == old(world.player) &&
                unchanged(world, world.player, world.player.invincibilityTimer, world.spawnTimer)
      ensures world.state == Playing && old(world.state) == GameOver ==>
                frame.spacePressed && world.lives == START_LIVES
    {
      match world.state {
        case Playing =>
          world.Update(frame.dt, frame.spacePressed, frame.spawnRoll);
        case GameOver =>
          if frame.spacePressed {
            world.Init();
            world.state := Playing;
          }
      }
    }

    /**
     * The game's frame loop over the frames the library delivers until the window is
     * closed: a new round first, then one `Step` per frame.
     */
    method Run(frames: seq<Frame>)
      requires Valid() && ValidFrames(frames)
      modifies world, world.player, world.player.invincibilityTimer, world.spawnTimer
      ensures Valid() && fresh(world.player) && fresh(world.player.invincibilityTimer)
      ensures world.Snapshot() == RunFrames(NewRound(old(world.Snapshot())), frames)
      ensures |frames| == 0 ==>
                world.player.Initial() &&
                world.score == 0 && world.lives == START_LIVES && world.obstacles == [] &&
                world.spawnTimer.State() == Restarted(old(world.spawnTimer.time)) &&
                world.state == old(world.state)
    {
      ghost var start := NewRound(world.Snapshot());
      Init();
      for i := 0 to |frames|
        invariant Valid()
        invariant fresh(world.player) && fresh(world.player.invincibilityTimer)
        invariant i == 0 ==>
                    world.player.Initial() &&
                    world.score == 0 && world.lives == START_LIVES && world.obstacles == [] &&
                    world.spawnTimer.State() == Restarted(old(world.spawnTimer.time)) &&
                    world.state == old(world.state)
        invariant world.Snapshot() == RunFrames(start, frames[..i])
      {
        Step(frames[i]);
        assert frames[..i + 1][..i] == frames[..i];
      }
      assert frames[..|frames|] == frames;
    }
  }
}
