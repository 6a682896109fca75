/** Fixed dimensions and base speeds of the playing field (src/constants.py:7-13). */
module Constants {
  const WindowWidth: int := 800
  const WindowHeight: int := 600
  const PaddleWidth: int := 15
  const PaddleHeight: int := 100
  const BallSize: int := 15
  const PaddleSpeed: int := 5
  const BallSpeed: int := 5
}
