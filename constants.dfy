/**
 * The game's tuning constants (shared/src/constants.ts).  Counts are
 * integers; lengths, speeds and angles are reals.
 */
module Constants {
  // shared by both modes
  const MAX_PLAYERS: nat := 12
  const MIN_PLAYERS: nat := 2
  const DEFAULT_LIVES: int := 3
  const TICK_RATE: nat := 60
  const BALL_RADIUS: real := 8.0
  const BALL_SPEED: real := 5.0

  // classic mode
  const CLASSIC_ARENA_RADIUS: real := 350.0
  const CLASSIC_PADDLE_WIDTH_RATIO: real := 0.35
  const CLASSIC_PADDLE_SPEED: real := 0.02
  const CLASSIC_MAX_BALL_SPEED: real := 14.0

  // goals mode
  const GOALS_ARENA_RADIUS: real := 360.0
  const GOALS_GOAL_RING_RADIUS: real := 259.0
  const GOALS_GOAL_RADIUS: real := 18.0
  const GOALS_ORBIT_RADIUS: real := 54.0
  const GOALS_ORBIT_RADIUS_MIN: real := 30.0
  const GOALS_ORBIT_RADIUS_MAX: real := 80.0
  const GOALS_ORBIT_RADIUS_SPEED: real := 1.5
  const GOALS_PADDLE_ARC: real := 0.5
  const GOALS_ORBIT_SPEED: real := 0.5
  const GOALS_ORBIT_ACCEL: real := 0.18
  const GOALS_MAX_BALL_SPEED: real := 10.0
  const GOALS_LIVES: int := 5
  const GOALS_BALL_SPAWN_INTERVAL: nat := 3600
}
