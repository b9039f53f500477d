/** The free-play configuration constants of app.js (lines 17-29), as reals. */
module Constants {

  /** Number of balls created on entering free play. */
  const NUMBER_OF_BALLS: nat := 200

  /** Ball diameters are whole pixels in [MIN_BALL_SIZE, MAX_BALL_SIZE]. */
  const MIN_BALL_SIZE: int := 30
  const MAX_BALL_SIZE: int := 60

  /** Height of the floor above the container's bottom edge. */
  const GROUND_Y_OFFSET: real := 20.0

  /** Per-frame change of vertical velocity (negative: pulls down). */
  const GRAVITY: real := -0.8

  /** Fraction of vertical speed kept on a floor bounce. */
  const BOUNCE_DAMPING: real := 0.8

  /** Fraction of horizontal speed kept on a wall bounce. */
  const WALL_DAMPING: real := 0.9

  /** Range of the upward velocity a voice kick gives. */
  const VOICE_IMPULSE_MIN: real := 15.0
  const VOICE_IMPULSE_MAX: real := 45.0

  /** Raw mean volumes mapped onto the normalized range [0, 1]. */
  const VOLUME_THRESHOLD_MIN: real := 10.0
  const VOLUME_THRESHOLD_MAX: real := 100.0

  /** `analyser.fftSize = 256` gives `frequencyBinCount` = 128 bins. */
  const FFT_SIZE: nat := 256
  const FREQUENCY_BIN_COUNT: nat := FFT_SIZE / 2

  /** A ball's bottom within this distance of the floor can be kicked. */
  const KICK_TOLERANCE: real := 5.0

  /** Normalized volume above which a kick fires. */
  const KICK_VOLUME: real := 0.1

  /** Upper cap on a kicked ball's vertical velocity. */
  const KICK_CAP: real := VOICE_IMPULSE_MAX * 1.5
}
