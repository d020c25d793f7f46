/**
 * The wave parameter record (`WaveParams`, 96 bytes: two `int`s then 22
 * `float`s) and its reset to the documented defaults.
 *
 * The record is generic in how a float field is represented: the synthesis
 * engine and the generators work on `Params`, whose float fields are reals;
 * the parameter files hold `WaveParams<Word>`, each float field as the 32-bit
 * pattern `fread`/`fwrite` copy.
 */
module Params {
  import opened Bytes
  import opened Random

  datatype WaveParams<F> = WaveParams(
    randSeed: Int32,
    waveTypeValue: Int32,
    // Envelope
    attackTimeValue: F,
    sustainTimeValue: F,
    sustainPunchValue: F,
    decayTimeValue: F,
    // Frequency
    startFrequencyValue: F,
    minFrequencyValue: F,
    slideValue: F,
    deltaSlideValue: F,
    vibratoDepthValue: F,
    vibratoSpeedValue: F,
    // Tone change
    changeAmountValue: F,
    changeSpeedValue: F,
    // Square wave
    squareDutyValue: F,
    dutySweepValue: F,
    // Repeat
    repeatSpeedValue: F,
    // Phaser
    phaserOffsetValue: F,
    phaserSweepValue: F,
    // Filters
    lpfCutoffValue: F,
    lpfCutoffSweepValue: F,
    lpfResonanceValue: F,
    hpfCutoffValue: F,
    hpfCutoffSweepValue: F)
  {
    /** The 22 float fields in declaration order, which is their order in memory. */
    function Floats(): (fs: seq<F>)
      ensures |fs| == 22
    {
      [attackTimeValue, sustainTimeValue, sustainPunchValue, decayTimeValue,
       startFrequencyValue, minFrequencyValue, slideValue, deltaSlideValue, vibratoDepthValue, vibratoSpeedValue,
       changeAmountValue, changeSpeedValue,
       squareDutyValue, dutySweepValue,
       repeatSpeedValue,
       phaserOffsetValue, phaserSweepValue,
       lpfCutoffValue, lpfCutoffSweepValue, lpfResonanceValue, hpfCutoffValue, hpfCutoffSweepValue]
    }
  }

  /** The record with the given integer fields and float fields in declaration order. */
  function FromFloats<F>(seed: Int32, waveType: Int32, fs: seq<F>): (p: WaveParams<F>)
    requires |fs| == 22
    ensures p.randSeed == seed && p.waveTypeValue == waveType && p.Floats() == fs
  {
    WaveParams(seed, waveType, fs[0], fs[1], fs[2], fs[3], fs[4], fs[5], fs[6], fs[7], fs[8], fs[9], fs[10],
      fs[11], fs[12], fs[13], fs[14], fs[15], fs[16], fs[17], fs[18], fs[19], fs[20], fs[21])
  }

  /** Parameters as the generators and the synthesis engine see them. */
  type Params = WaveParams<real>

  /** Wave types selected by `waveTypeValue`. */
  const Square: Int32 := 0
  const Sawtooth: Int32 := 1
  const Sine: Int32 := 2
  const Noise: Int32 := 3

  /**
   * The documented defaults: square wave, sustain 0.3, decay 0.4, start
   * frequency 0.3, low-pass cutoff 1.0 (filter off), every other float 0.
   */
  function Defaults(seed: Int32): Params
  {
    WaveParams(seed, Square,
      0.0, 0.3, 0.0, 0.4,
      0.3, 0.0, 0.0, 0.0, 0.0, 0.0,
      0.0, 0.0,
      0.0, 0.0,
      0.0,
      0.0, 0.0,
      1.0, 0.0, 0.0, 0.0, 0.0)
  }

  /**
   * ResetWaveParams: draws a fresh seed in [1, 0xFFFE], restarts the generator
   * with it (so the edits that follow are reproducible from the seed) and sets
   * every other field to its default, whatever the record held before.
   */
  method ResetWaveParams(params: Params, rng: Rng) returns (p: Params, next: Rng)
    ensures 1 <= p.randSeed <= 0xFFFE
    ensures p == Defaults(p.randSeed)
    ensures next == Reseed(rng, p.randSeed)
  {
    var seed;
    seed, next := GetRandomValue(rng, 0x1, 0xFFFE);
    next := Reseed(next, seed);
    p := params.(randSeed := seed);

    p := p.(waveTypeValue := 0);

    p := p.(attackTimeValue := 0.0);
    p := p.(sustainTimeValue := 0.3);
    p := p.(sustainPunchValue := 0.0);
    p := p.(decayTimeValue := 0.4);

    p := p.(startFrequencyValue := 0.3);
    p := p.(minFrequencyValue := 0.0);
    p := p.(slideValue := 0.0);
    p := p.(deltaSlideValue := 0.0);
    p := p.(vibratoDepthValue := 0.0);
    p := p.(vibratoSpeedValue := 0.0);

    p := p.(changeAmountValue := 0.0);
    p := p.(changeSpeedValue := 0.0);

    p := p.(squareDutyValue := 0.0);
    p := p.(dutySweepValue := 0.0);

    p := p.(repeatSpeedValue := 0.0);

    p := p.(phaserOffsetValue := 0.0);
    p := p.(phaserSweepValue := 0.0);

    p := p.(lpfCutoffValue := 1.0);
    p := p.(lpfCutoffSweepValue := 0.0);
    p := p.(lpfResonanceValue := 0.0);
    p := p.(hpfCutoffValue := 0.0);
    p := p.(hpfCutoffSweepValue := 0.0);
  }
}
