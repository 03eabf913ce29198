/** Playfield and sprite dimensions in pixels (graphics.h). */
module Dimensions {

  const SCREEN_WIDTH: int := 320
  const SCREEN_HEIGHT: int := 256

  const PADDLE_WIDTH: int := 8
  const PADDLE_HEIGHT: int := 32
  const BALL_SIZE: int := 6

  /** Distance of each paddle from its screen edge. */
  const PADDLE_OFFSET: int := 16
}
