/** Process-wide constants of the demo (the top of hellogosu.rb). */
module Config {
  const SCREEN_WIDTH: int := 1200
  const SCREEN_HEIGHT: int := 700
  const STREAM_LEFT_BORDER: int := 150
  const STREAM_RIGHT_BORDER: int := 700
  const HOW_MANY_BALLS: nat := 2000
  const HOW_MANY_BOXES: nat := 100

  /** Vertical spawn band of the randomly placed entities: rand(-5000..50). */
  const SPAWN_TOP: int := -5000
  const SPAWN_BOTTOM: int := 50

  /** Fixed physics time step of Game#update, 1/60 s. */
  const TIME_STEP: real := 1.0 / 60.0
}
