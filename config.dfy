/** The fixed configuration of the game: screen, paddle, ball, brick grid, lives and levels. */
module Config {
  const SCREEN_W: int := 640
  const SCREEN_H: int := 480

  const PADDLE_W: int := 140
  const PADDLE_H: int := 18
  const BALL_R: int := 10

  const BRICK_COLS: int := 8
  const BRICK_H: int := 22
  const BRICK_GAP: int := 4
  const BRICK_TOP: int := 60

  const LIVES: int := 3
  const MAX_LEVEL: int := 3

  /** Points awarded per brick, and the label of the floating text that announces them. */
  const REWARD: int := 10
  const REWARD_LABEL: string := "+10"
  /** Number of updates a floating text starts with. */
  const TEXT_LIFE: int := 30

  /** The ball radius as a real, for comparisons with the ball's real coordinates. */
  const R: real := BALL_R as real
}
