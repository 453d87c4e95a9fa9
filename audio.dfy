/** What the two tone generators share: 16-bit samples and the frame count of a tone. */
module Audio {
  /** Java's `short`. */
  newtype Short = x: int | -0x8000 <= x < 0x8000

  /** `Integer.MAX_VALUE`: the products inside `generateTone` stay below it. */
  const INT_MAX: int := 0x7fff_ffff

  /** The sample rate both screens pass to `generateTone`. */
  const SAMPLE_RATE: nat := 44100

  /**
   * `duration * sampleRate / 1000`, the number of stereo frames of a tone of
   * `duration` milliseconds. Both operands are non-negative, where Java's
   * truncating division agrees with Dafny's.
   */
  function FrameCount(duration: nat, sampleRate: nat): nat {
    duration * sampleRate / 1000
  }

  /**
   * The sample a tone generator computes for frame `frame` of a tone at
   * `frequency` Hz: the cast of `Short.MAX_VALUE * sin(phase) * volume` after
   * `frame` phase increments of `2 * PI * frequency / sampleRate`. The sine and
   * the cast are floating point and stay outside the model: a generator is
   * given this as an arbitrary function.
   */
  type Waveform = (int, nat, nat) -> Short
}
