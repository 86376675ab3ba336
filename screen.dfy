/** Screen and floor layout of the game, with float constants taken as exact reals. */
module Screen {
  const SCREEN_WIDTH: int := 1000
  const SCREEN_HEIGHT: int := 400

  const FLOOR_HEIGHT: real := 35.0
  /** The floor line: nothing that stands on the floor reaches below it. */
  const FLOOR_Y: real := SCREEN_HEIGHT as real - FLOOR_HEIGHT

  /** Horizontal distance an obstacle scrolls left per frame (a fixed per-frame step). */
  const OBSTACLE_SPEED: real := 400.0 / 60.0
}
