/** The playing field constants declared at the top of index.js. */
module Stage {

  const CanvasHeight: int := 576

  /** Added to a fighter's vertical velocity on every airborne frame. */
  const Gravity: real := 0.7

  /** The line a fighter's feet are tested against: `canvas.height - 99`. */
  const GroundLine: real := (CanvasHeight - 99) as real

  /** The vertical velocity a jump key sets (index.js keydown handler). */
  const JumpVelocity: real := -20.0

  /** The horizontal speed the held-key rule sets each frame. */
  const MoveSpeed: real := 5.0
}
