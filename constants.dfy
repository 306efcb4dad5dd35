/**
 * The tuning constants of the game (src/pong/core/constants.ts) that the
 * simulation reads. Lengths are world units, speeds units per second.
 * The presentation-only values (table height, floor size, paddle height,
 * camera placement, storage key, tick rate) are not part of this model.
 */
module Constants {
  const TABLE_LENGTH: real := 18.0
  const TABLE_WIDTH: real := 10.0

  const PADDLE_WIDTH: real := 0.6
  const PADDLE_DEPTH: real := 3.4
  const PADDLE_BOUNDARY_PADDING: real := 0.8
  const PADDLE_SPEED: real := 7.5
  const AI_MAX_SPEED: real := 6.2

  const BALL_RADIUS: real := 0.34
  const BALL_INITIAL_SPEED: real := 5.2
  const BALL_SPEED_INCREMENT: real := 0.32
  const BALL_MAX_SPEED: real := 12.0
}
