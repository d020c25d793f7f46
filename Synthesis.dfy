/**
 * GenerateWave: the sfxr synthesis loop that turns a parameter record into
 * at most ten seconds of 44100 Hz mono samples.
 *
 * The loop's state (the locals of GenerateWave) is the class `Synth`: the
 * constructor is the setup before the loop, and each method is one block of
 * the loop body, with a frame that names the locals the block writes. Signal
 * values are reals; `sinf` is the parameter `sin`; `pow` with the whole
 * exponents used here is `Pow`.
 */
module Synthesis {
  import opened Bytes
  import opened Random
  import opened Params
  import opened Numeric
  import Envelope

  const SampleRate: nat := 44100
  const MaxSeconds: nat := 10
  /** The buffer's capacity and the number of loop iterations. */
  const MaxSamples: nat := MaxSeconds * SampleRate
  /** Sub-samples averaged into each output sample. */
  const Supersampling: nat := 8
  const PhaserSize: nat := 1024
  const NoiseSize: nat := 32
  const PI: real := 3.14159265358979323846
  /** Scales the averaged sub-samples into [-1, 1]. */
  const SampleScale: real := 0.2

  /**
   * The repair GenerateWave applies to its copy of the parameters: the minimum
   * frequency is lowered to the start frequency, and the slide raised to the
   * delta slide, when they are out of order. Nothing else changes.
   */
  function Correct(p: Params): (q: Params)
    ensures q.minFrequencyValue <= q.startFrequencyValue && q.deltaSlideValue <= q.slideValue
    ensures q == p.(minFrequencyValue := q.minFrequencyValue, slideValue := q.slideValue)
    ensures p.minFrequencyValue <= p.startFrequencyValue ==> q.minFrequencyValue == p.minFrequencyValue
    ensures p.deltaSlideValue <= p.slideValue ==> q.slideValue == p.slideValue
  {
    var p1 := if p.minFrequencyValue > p.startFrequencyValue then p.(minFrequencyValue := p.startFrequencyValue) else p;
    if p1.slideValue < p1.deltaSlideValue then p1.(slideValue := p1.deltaSlideValue) else p1
  }

  /** `x` limited to [lo, hi] by the two `if`s the loop uses. */
  function Clamp(x: real, lo: real, hi: real): (r: real)
    requires lo <= hi
    ensures lo <= r <= hi
    ensures lo <= x <= hi ==> r == x
  {
    if x < lo then lo else if x > hi then hi else x
  }

  /** The oscillator period, in samples, for a frequency parameter. */
  function PeriodOf(frequency: real): (r: real)
    ensures 0.0 < r
  {
    PowEven(frequency, 1);
    100.0 / (frequency * frequency + 0.001)
  }

  /** A higher frequency parameter gives a shorter period. */
  lemma PeriodFalls(low: real, high: real)
    requires 0.0 <= low <= high
    ensures PeriodOf(high) <= PeriodOf(low)
  {
    SquareBounds(high, low, high);
    var a, b := low * low + 0.001, high * high + 0.001;
    assert 100.0 / b * b == 100.0 && 100.0 / a * a == 100.0;
    assert 100.0 / b * a <= 100.0 / b * b;
  }

  /**
   * After the repair, a non-negative minimum frequency gives a period cap no
   * shorter than the starting period, so the sound does not stop on its
   * first sample for want of range.
   */
  lemma StartWithinCap(p: Params)
    requires 0.0 <= Correct(p).minFrequencyValue
    ensures PeriodOf(Correct(p).startFrequencyValue) <= PeriodOf(Correct(p).minFrequencyValue)
  {
    PeriodFalls(Correct(p).minFrequencyValue, Correct(p).startFrequencyValue);
  }

  /** The period as used by the oscillator: truncated, and never below 8 samples. */
  function ClampPeriod(rfperiod: real): (n: int)
    ensures 8 <= n
    ensures 8 <= Trunc(rfperiod) ==> n == Trunc(rfperiod)
  {
    var n := Trunc(rfperiod);
    if n < 8 then 8 else n
  }

  function SlideOf(slide: real): real
  {
    1.0 - Pow(slide, 3) * 0.01
  }

  function DeltaSlideOf(deltaSlide: real): real
  {
    -Pow(deltaSlide, 3) * 0.000001
  }

  function DutyOf(duty: real): real
  {
    0.5 - duty * 0.5
  }

  function DutySweepOf(sweep: real): real
  {
    -sweep * 0.00005
  }

  /** The factor the arpeggio applies to the period once: a positive change amount shortens it, a negative one lengthens it. */
  function ArpeggioModulation(changeAmount: real): (m: real)
    ensures 0.0 <= changeAmount ==> 0.1 <= m <= 1.0 || 1.0 < changeAmount
    ensures changeAmount < 0.0 ==> 1.0 < m
  {
    PowEven(changeAmount, 1);
    if changeAmount >= 0.0 then
      assert changeAmount <= 1.0 ==> Pow(changeAmount, 2) <= 1.0 by {
        if changeAmount <= 1.0 {
          PowFraction(changeAmount, 2);
        }
      }
      1.0 - Pow(changeAmount, 2) * 0.9
    else
      PowTwoPositive(changeAmount);
      1.0 + Pow(changeAmount, 2) * 10.0
  }

  /** `(int)(pow(1 - speed, 2) * 20000 + 32)`: a count of samples, at least 32. */
  function CycleLimit(speed: real): (n: int)
    ensures 32 <= n
  {
    PowEven(1.0 - speed, 1);
    Trunc(Pow(1.0 - speed, 2) * 20000.0 + 32.0)
  }

  /** Samples until the arpeggio jump; 0, meaning never, exactly when the change speed is 1. */
  function ArpeggioLimit(changeSpeed: real): (n: int)
    ensures n == 0 <==> changeSpeed == 1.0
    ensures n != 0 ==> 32 <= n
  {
    if changeSpeed == 1.0 then 0 else CycleLimit(changeSpeed)
  }

  /** Samples between repeats; 0, meaning never, exactly when the repeat speed is 0. */
  function RepeatLimit(repeatSpeed: real): (n: int)
    ensures n == 0 <==> repeatSpeed == 0.0
    ensures n != 0 ==> 32 <= n
  {
    if repeatSpeed == 0.0 then 0 else CycleLimit(repeatSpeed)
  }

  /** The length in samples of an envelope stage of the given time parameter. */
  function EnvelopeLength(time: real): nat
  {
    SquareNonNegative(time);
    Trunc(time * time * 100000.0)
  }

  function EnvelopeLengths(p: Params): (lengths: seq<nat>)
    ensures Envelope.ValidLengths(lengths)
  {
    [EnvelopeLength(p.attackTimeValue), EnvelopeLength(p.sustainTimeValue), EnvelopeLength(p.decayTimeValue)]
  }

  /**
   * A stage time within 0.003 of zero gives a stage of no samples, so the
   * presets that draw a sustain or decay time from 0 upwards (pickup/coin,
   * hit/hurt, blip/select) can produce one.
   */
  lemma ShortStageIsEmpty(time: real)
    requires -0.003 <= time <= 0.003
    ensures EnvelopeLength(time) == 0
  {
    var a := if time < 0.0 then -time else time;
    assert a * a == time * time;
    SquareBounds(a, 0.0, 0.003);
  }

  function CutoffOf(lpfCutoff: real): real
  {
    Pow(lpfCutoff, 3) * 0.1
  }

  function CutoffSweepOf(lpfCutoffSweep: real): real
  {
    1.0 + lpfCutoffSweep * 0.0001
  }

  /** The low-pass damping, never above 0.8. */
  function DampingOf(lpfResonance: real, fltw: real): (d: real)
    ensures d <= 0.8
  {
    PowEven(lpfResonance, 1);
    var d := 5.0 / (1.0 + Pow(lpfResonance, 2) * 20.0) * (0.01 + fltw);
    if d > 0.8 then 0.8 else d
  }

  function HighPassOf(hpfCutoff: real): real
  {
    Pow(hpfCutoff, 2) * 0.1
  }

  function HighPassSweepOf(hpfCutoffSweep: real): real
  {
    1.0 + hpfCutoffSweep * 0.0003
  }

  /** The phaser offset in samples, with the sign of the parameter. */
  function PhaserOffsetOf(offset: real): real
  {
    var m := Pow(offset, 2) * 1020.0;
    if offset < 0.0 then -m else m
  }

  /** The phaser's drift per sample, with the sign of the parameter. */
  function PhaserSweepOf(sweep: real): real
  {
    var m := Pow(sweep, 2) * 1.0;
    if sweep < 0.0 then -m else m
  }

  /** `abs((int)fphase)` limited to 1023: the phaser delay, a slot distance in the ring. */
  function PhaserDelay(fphase: real): (d: int)
    ensures 0 <= d <= PhaserSize - 1
  {
    var d := Abs(Trunc(fphase));
    if d > PhaserSize - 1 then PhaserSize - 1 else d
  }

  /** `x & 1023` for a non-negative `x`: its low ten bits, the remainder by 1024. */
  function Low10(x: nat): (r: nat)
    ensures r < PhaserSize
  {
    x % 1024
  }

  /** The phaser's read slot, `iphase` slots behind the write slot `ipp`. */
  function ReadSlot(ipp: nat, iphase: nat): (r: nat)
    requires ipp < PhaserSize && iphase < PhaserSize
    ensures r < PhaserSize
    ensures (r + iphase) % PhaserSize == ipp
  {
    Low10(ipp - iphase + PhaserSize)
  }

  /** What the phaser mixes for the sample written at slot `w`: that slot plus the slot `iphase` behind it. */
  function Echo(ring: seq<real>, w: nat, iphase: nat): real
    requires |ring| == PhaserSize && w < PhaserSize && iphase < PhaserSize
  {
    ring[w] + ring[ReadSlot(w, iphase)]
  }

  /** The slot written by sub-sample `j` of an output sample that starts writing at `a`. */
  function Slot(a: nat, j: nat): (r: nat)
    ensures r < PhaserSize
  {
    Low10(a + j)
  }

  /** Advancing the write slot by one wraps like advancing the counter by one. */
  lemma ModShift(a: nat, j: nat)
    ensures Low10(Slot(a, j) + 1) == Slot(a, j + 1)
  {
  }

  /**
   * Within one output sample, the slot written by a later sub-sample is
   * neither the slot an earlier one wrote nor the slot it read, as long as
   * the delay is at most 1016.
   */
  lemma SlotsApart(a: nat, j: nat, k: nat, iphase: nat)
    requires j < k < Supersampling && iphase <= PhaserSize - Supersampling
    ensures Slot(a, k) != Slot(a, j)
    ensures Slot(a, k) != ReadSlot(Slot(a, j), iphase)
  {
    var r, q := Slot(a, j), (a + j) / PhaserSize;
    var w := if r + (k - j) < PhaserSize then r + (k - j) else r + (k - j) - PhaserSize;
    LowOf(a + k, if r + (k - j) < PhaserSize then q else q + 1, w);
    var t := if iphase <= r then r - iphase else r - iphase + PhaserSize;
    LowOf(r - iphase + PhaserSize, if iphase <= r then 1 else 0, t);
  }

  /** The low ten bits of `x` are the remainder `s` of any split of `x` into multiples of 1024 and a remainder. */
  lemma LowOf(x: nat, q: int, s: int)
    requires x == PhaserSize * q + s && 0 <= s < PhaserSize
    ensures Low10(x) == s
  {
  }

  /** Each of `parts` is what the phaser mixed for its sub-sample, read from `ring`, times the volume. */
  ghost predicate EchoParts(parts: seq<real>, ring: seq<real>, a: nat, iphase: nat, volume: real)
    requires |ring| == PhaserSize && iphase < PhaserSize
  {
    forall j | 0 <= j < |parts| :: parts[j] == Echo(ring, Slot(a, j), iphase) * volume
  }

  /** Writing the next sub-sample's slot keeps the earlier parts readable from the ring. */
  lemma EchoPartsExtend(parts: seq<real>, c: real, ring: seq<real>, written: seq<real>, a: nat, iphase: nat, volume: real)
    requires |ring| == PhaserSize && |parts| < Supersampling && iphase <= PhaserSize - Supersampling
    requires EchoParts(parts, ring, a, iphase, volume)
    requires |written| == PhaserSize && written == ring[Slot(a, |parts|) := written[Slot(a, |parts|)]]
    requires c == Echo(written, Slot(a, |parts|), iphase) * volume
    ensures EchoParts(parts + [c], written, a, iphase, volume)
  {
    var k := |parts|;
    forall j | 0 <= j < k
      ensures Echo(written, Slot(a, j), iphase) == Echo(ring, Slot(a, j), iphase)
    {
      SlotsApart(a, j, k, iphase);
    }
  }

  /** The sum of a sequence of reals, accumulated from the front. */
  function Total(xs: seq<real>): real
  {
    if |xs| == 0 then 0.0 else Total(xs[..|xs| - 1]) + xs[|xs| - 1]
  }

  lemma TotalAppend(xs: seq<real>, x: real)
    ensures Total(xs + [x]) == Total(xs) + x
  {
    assert (xs + [x])[..|xs|] == xs;
  }

  /** The noise slot for a phase: `phase * 32 / period`, always one of the 32 slots. */
  function NoiseIndex(phase: int, period: int): (r: int)
    requires 0 <= phase < period
    ensures 0 <= r < NoiseSize
  {
    var r := phase * 32 / period;
    assert r * period <= phase * 32 < period * 32;
    r
  }

  /** The sub-sample count after one tick: `phase + 1`, reduced modulo the period when it reaches it. */
  function Advance(phase: int, period: int): (r: int)
    requires 0 <= phase && 1 <= period
    ensures 0 <= r
    ensures r < period
  {
    var q := phase + 1;
    if q >= period then q % period else q
  }

  /** The base oscillator for a wave type, before the filters. */
  function Waveform(waveType: Int32, phase: int, period: int, duty: real, noise: seq<real>, sin: real -> real): (x: real)
    requires 0 <= phase < period && |noise| == NoiseSize
    ensures waveType != Sine && (forall k | 0 <= k < NoiseSize :: -1.0 <= noise[k] <= 1.0) ==> -1.0 <= x <= 1.0
  {
    var fp := phase as real / period as real;
    assert 0.0 <= fp < 1.0 by {
      assert fp * period as real == phase as real;
    }
    if waveType == Square then (if fp < duty then 0.5 else -0.5)
    else if waveType == Sawtooth then 1.0 - fp * 2.0
    else if waveType == Sine then sin(fp * 2.0 * PI)
    else if waveType == Noise then noise[NoiseIndex(phase, period)]
    else 0.0
  }

  /** One step of the resonant low-pass filter following `x`; switched off, it passes `x` through. */
  function LowPass(fltp: real, fltdp: real, x: real, fltw: real, fltdmp: real, on: bool): (real, real)
  {
    if on then
      var pushed := fltdp + (x - fltp) * fltw;
      var damped := pushed - pushed * fltdmp;
      (fltp + damped, damped)
    else
      (x, 0.0)
  }

  /** One step of the high-pass filter, given the change of the low-pass output. */
  function HighPass(fltphp: real, change: real, flthp: real): real
  {
    var pushed := fltphp + change;
    pushed - pushed * flthp
  }

  /** The random source GenerateWave draws from: restarted from the record's seed unless that is 0. */
  function Seeded(rng: Rng, seed: int): Rng
  {
    if seed != 0 then Reseed(rng, seed) else rng
  }

  /** The pitch state, which a repeat re-initialises. */
  datatype PitchState = PitchState(
    fperiod: real, period: int, fmaxperiod: real, fslide: real, fdslide: real,
    squareDuty: real, squareSlide: real,
    arpeggioModulation: real, arpeggioTime: int, arpeggioLimit: int)

  function InitialPitch(p: Params): PitchState
  {
    var fperiod := PeriodOf(p.startFrequencyValue);
    PitchState(fperiod, Trunc(fperiod), PeriodOf(p.minFrequencyValue),
      SlideOf(p.slideValue), DeltaSlideOf(p.deltaSlideValue),
      DutyOf(p.squareDutyValue), DutySweepOf(p.dutySweepValue),
      ArpeggioModulation(p.changeAmountValue), 0, ArpeggioLimit(p.changeSpeedValue))
  }

  /** The state of one run of the synthesis loop. */
  class Synth {
    // Fixed before the loop starts
    const params: Params
    const sin: real -> real
    const lengths: seq<nat>
    const fltwd: real
    const fltdmp: real
    const flthpd: real
    const vibratoSpeed: real
    const vibratoAmplitude: real
    const fdphase: real
    const repeatLimit: int
    const phaserBuffer: array<real>
    const noiseBuffer: array<real>

    // Pitch, re-initialised by each repeat
    var fperiod: real
    var period: int
    var fmaxperiod: real
    var fslide: real
    var fdslide: real
    var squareDuty: real
    var squareSlide: real
    var arpeggioModulation: real
    var arpeggioTime: int
    var arpeggioLimit: int

    var repeatTime: int
    var phase: int
    var envelopeStage: nat
    var envelopeTime: nat
    var envelopeVolume: real
    var fphase: real
    var iphase: int
    var ipp: int
    var fltp: real
    var fltdp: real
    var fltw: real
    var fltphp: real
    var flthp: real
    var vibratoPhase: real
    var rng: Rng
    var generating: bool

    ghost function Pitch(): PitchState
      reads this
    {
      PitchState(fperiod, period, fmaxperiod, fslide, fdslide, squareDuty, squareSlide,
        arpeggioModulation, arpeggioTime, arpeggioLimit)
    }

    ghost function Position(): Envelope.Position
      reads this
    {
      Envelope.Position(envelopeStage, envelopeTime)
    }

    ghost predicate NoiseInRange()
      reads this, noiseBuffer
    {
      forall k | 0 <= k < noiseBuffer.Length :: -1.0 <= noiseBuffer[k] <= 1.0
    }

    /** The invariant of the loop state. */
    ghost predicate Valid()
      reads this, noiseBuffer
    {
      && phaserBuffer.Length == PhaserSize && noiseBuffer.Length == NoiseSize && phaserBuffer != noiseBuffer
      && lengths == EnvelopeLengths(params)
      && 0 <= ipp < PhaserSize && 0 <= phase && 0 <= iphase
      && envelopeStage <= 3 && (envelopeStage == 3 ==> !generating)
      && (envelopeStage < 3 ==> envelopeTime <= lengths[envelopeStage])
      && NoiseInRange()
    }

    /** The setup before the loop. */
    constructor (input: Params, source: Rng, sin: real -> real)
      ensures Valid() && generating
      ensures params == Correct(input) && this.sin == sin && lengths == EnvelopeLengths(params)
      ensures Pitch() == InitialPitch(params)
      ensures Position() == Envelope.Position(0, 0) && envelopeVolume == 0.0
      ensures repeatTime == 0 && phase == 0 && ipp == 0 && vibratoPhase == 0.0
      ensures repeatLimit == RepeatLimit(params.repeatSpeedValue)
      ensures fltw == CutoffOf(params.lpfCutoffValue) && fltwd == CutoffSweepOf(params.lpfCutoffSweepValue)
      ensures fltdmp == DampingOf(params.lpfResonanceValue, fltw)
      ensures flthp == HighPassOf(params.hpfCutoffValue) && flthpd == HighPassSweepOf(params.hpfCutoffSweepValue)
      ensures fltp == 0.0 && fltdp == 0.0 && fltphp == 0.0
      ensures vibratoSpeed == Pow(params.vibratoSpeedValue, 2) * 0.01
      ensures vibratoAmplitude == params.vibratoDepthValue * 0.5
      ensures fphase == PhaserOffsetOf(params.phaserOffsetValue) && fdphase == PhaserSweepOf(params.phaserSweepValue)
      ensures iphase == Abs(Trunc(fphase))
      ensures fresh(phaserBuffer) && fresh(noiseBuffer)
      ensures forall k | 0 <= k < PhaserSize :: phaserBuffer[k] == 0.0
      ensures rng == AdvancedBy(Seeded(source, input.randSeed), NoiseSize)
    {
      var p := Correct(input);
      params := p;
      this.sin := sin;
      lengths := EnvelopeLengths(p);
      var w := CutoffOf(p.lpfCutoffValue);
      fltwd := CutoffSweepOf(p.lpfCutoffSweepValue);
      fltdmp := DampingOf(p.lpfResonanceValue, w);
      flthpd := HighPassSweepOf(p.hpfCutoffSweepValue);
      vibratoSpeed := Pow(p.vibratoSpeedValue, 2) * 0.01;
      vibratoAmplitude := p.vibratoDepthValue * 0.5;
      fdphase := PhaserSweepOf(p.phaserSweepValue);
      repeatLimit := RepeatLimit(p.repeatSpeedValue);
      phaserBuffer := new real[PhaserSize](_ => 0.0);
      noiseBuffer := new real[NoiseSize](_ => 0.0);

      rng := Seeded(source, input.randSeed);
      var pitch := InitialPitch(p);
      fperiod, period, fmaxperiod, fslide, fdslide := pitch.fperiod, pitch.period, pitch.fmaxperiod, pitch.fslide, pitch.fdslide;
      squareDuty, squareSlide := pitch.squareDuty, pitch.squareSlide;
      arpeggioModulation, arpeggioTime, arpeggioLimit := pitch.arpeggioModulation, pitch.arpeggioTime, pitch.arpeggioLimit;
      fltw := w;
      flthp := HighPassOf(p.hpfCutoffValue);
      fltp, fltdp, fltphp := 0.0, 0.0, 0.0;
      var f := PhaserOffsetOf(p.phaserOffsetValue);
      fphase := f;
      iphase := Abs(Trunc(f));
      phase, ipp, repeatTime := 0, 0, 0;
      envelopeStage, envelopeTime, envelopeVolume := 0, 0, 0.0;
      vibratoPhase := 0.0;
      generating := true;
      new;
      RefreshNoise();
    }

    /** Fills the noise table with 32 fresh values in [-1, 1]. */
    method RefreshNoise()
      requires noiseBuffer.Length == NoiseSize
      modifies noiseBuffer, this`rng
      ensures NoiseInRange()
      ensures rng == AdvancedBy(old(rng), NoiseSize)
    {
      for i := 0 to NoiseSize
        invariant forall k | 0 <= k < i :: -1.0 <= noiseBuffer[k] <= 1.0
        invariant rng == AdvancedBy(old(rng), i)
      {
        var x;
        x, rng := Frnd(rng, 2.0);
        noiseBuffer[i] := x - 1.0;
      }
    }

    /** Re-initialises the pitch state from the parameters. */
    method ResetSample()
      modifies this`fperiod, this`period, this`fmaxperiod, this`fslide, this`fdslide, this`squareDuty,
        this`squareSlide, this`arpeggioModulation, this`arpeggioTime, this`arpeggioLimit
      ensures Pitch() == InitialPitch(params)
    {
      fperiod := PeriodOf(params.startFrequencyValue);
      period := Trunc(fperiod);
      fmaxperiod := PeriodOf(params.minFrequencyValue);
      fslide := SlideOf(params.slideValue);
      fdslide := DeltaSlideOf(params.deltaSlideValue);
      squareDuty := DutyOf(params.squareDutyValue);
      squareSlide := DutySweepOf(params.dutySweepValue);
      arpeggioModulation := ArpeggioModulation(params.changeAmountValue);
      arpeggioTime := 0;
      arpeggioLimit := ArpeggioLimit(params.changeSpeedValue);
    }

    /**
     * The repeat timer: every `repeatLimit` samples (never when it is 0) the
     * timer restarts and the pitch state is re-initialised; the envelope,
     * filters, phaser and noise table are outside this step's frame.
     */
    method RepeatStep()
      modifies this`repeatTime, this`fperiod, this`period, this`fmaxperiod, this`fslide, this`fdslide,
        this`squareDuty, this`squareSlide, this`arpeggioModulation, this`arpeggioTime, this`arpeggioLimit
      ensures var due := repeatLimit != 0 && old(repeatTime) + 1 >= repeatLimit;
        && (due ==> repeatTime == 0 && Pitch() == InitialPitch(params))
        && (!due ==> repeatTime == old(repeatTime) + 1 && Pitch() == old(Pitch()))
    {
      repeatTime := repeatTime + 1;
      if repeatLimit != 0 && repeatTime >= repeatLimit {
        repeatTime := 0;
        ResetSample();
      }
    }

    /** The arpeggio: once `arpeggioLimit` samples have passed (never when it is 0), the period is scaled once. */
    method ArpeggioStep()
      modifies this`arpeggioTime, this`arpeggioLimit, this`fperiod
      ensures arpeggioTime == old(arpeggioTime) + 1
      ensures var jump := old(arpeggioLimit) != 0 && arpeggioTime >= old(arpeggioLimit);
        && arpeggioLimit == (if jump then 0 else old(arpeggioLimit))
        && fperiod == (if jump then old(fperiod) * arpeggioModulation else old(fperiod))
    {
      arpeggioTime := arpeggioTime + 1;
      if arpeggioLimit != 0 && arpeggioTime >= arpeggioLimit {
        arpeggioLimit := 0;
        fperiod := fperiod * arpeggioModulation;
      }
    }

    /**
     * The slide, and the cap at the longest period: reaching the cap ends the
     * sound when the minimum frequency is positive.
     */
    method SlideStep()
      modifies this`fperiod, this`fslide, this`generating
      ensures fslide == old(fslide) + fdslide
      ensures var slid := old(fperiod) * fslide;
        && fperiod == (if slid > fmaxperiod then fmaxperiod else slid)
        && generating == (old(generating) && !(slid > fmaxperiod && params.minFrequencyValue > 0.0))
      ensures fperiod <= fmaxperiod
    {
      fslide := fslide + fdslide;
      fperiod := fperiod * fslide;
      if fperiod > fmaxperiod {
        fperiod := fmaxperiod;
        if params.minFrequencyValue > 0.0 {
          generating := false;
        }
      }
    }

    /** Vibrato and the integer period, which is never below 8. */
    method VibratoStep()
      modifies this`vibratoPhase, this`period
      ensures vibratoAmplitude > 0.0 ==>
        vibratoPhase == old(vibratoPhase) + vibratoSpeed
        && period == ClampPeriod(fperiod * (1.0 + sin(vibratoPhase) * vibratoAmplitude))
      ensures vibratoAmplitude <= 0.0 ==> vibratoPhase == old(vibratoPhase) && period == ClampPeriod(fperiod)
      ensures 8 <= period
    {
      var rfperiod := fperiod;
      if vibratoAmplitude > 0.0 {
        vibratoPhase := vibratoPhase + vibratoSpeed;
        rfperiod := fperiod * (1.0 + sin(vibratoPhase) * vibratoAmplitude);
      }
      period := Trunc(rfperiod);
      if period < 8 {
        period := 8;
      }
    }

    /** The duty sweep, with the duty kept in [0, 0.5]. */
    method DutyStep()
      modifies this`squareDuty
      ensures squareDuty == Clamp(old(squareDuty) + squareSlide, 0.0, 0.5)
      ensures 0.0 <= squareDuty <= 0.5
    {
      squareDuty := squareDuty + squareSlide;
      if squareDuty < 0.0 {
        squareDuty := 0.0;
      }
      if squareDuty > 0.5 {
        squareDuty := 0.5;
      }
    }

    /** The volume envelope: one tick of the stage clock, the end of the sound after the decay, and the volume. */
    method EnvelopeStep()
      requires lengths == EnvelopeLengths(params) && envelopeStage < 3
      modifies this`envelopeTime, this`envelopeStage, this`generating, this`envelopeVolume
      ensures Position() == Envelope.Step(lengths, old(Position()))
      ensures generating == (old(generating) && envelopeStage < 3)
      ensures envelopeVolume == Envelope.Volume(lengths, Position(), params.sustainPunchValue, old(envelopeVolume))
    {
      envelopeTime := envelopeTime + 1;
      if envelopeTime > lengths[envelopeStage] {
        envelopeTime := 0;
        envelopeStage := envelopeStage + 1;
        if envelopeStage == 3 {
          generating := false;
        }
      }

      if envelopeStage == 0 {
        envelopeVolume := Envelope.Fraction(envelopeTime, lengths[0]);
      }
      if envelopeStage == 1 {
        envelopeVolume := 1.0 + (1.0 - Envelope.Fraction(envelopeTime, lengths[1])) * 2.0 * params.sustainPunchValue;
      }
      if envelopeStage == 2 {
        envelopeVolume := 1.0 - Envelope.Fraction(envelopeTime, lengths[2]);
      }
    }

    /** The phaser drift, with the delay kept in [0, 1023]. */
    method PhaserStep()
      modifies this`fphase, this`iphase
      ensures fphase == old(fphase) + fdphase && iphase == PhaserDelay(fphase)
      ensures 0 <= iphase <= PhaserSize - 1
    {
      fphase := fphase + fdphase;
      iphase := Abs(Trunc(fphase));
      if iphase > PhaserSize - 1 {
        iphase := PhaserSize - 1;
      }
    }

    /** The high-pass sweep: when it is on, the cutoff is kept in [0.00001, 0.1]. */
    method HighPassStep()
      modifies this`flthp
      ensures flthpd != 0.0 ==> flthp == Clamp(old(flthp) * flthpd, 0.00001, 0.1)
      ensures flthpd == 0.0 ==> flthp == old(flthp)
      ensures flthpd != 0.0 ==> 0.00001 <= flthp <= 0.1
    {
      if flthpd != 0.0 {
        flthp := flthp * flthpd;
        if flthp < 0.00001 {
          flthp := 0.00001;
        }
        if flthp > 0.1 {
          flthp := 0.1;
        }
      }
    }

    /** The oscillator tick: the phase advances and wraps; a wrap of a noise wave redraws the noise table. */
    method Oscillate() returns (x: real)
      requires Valid() && 8 <= period
      modifies this`phase, this`rng, noiseBuffer
      ensures Valid()
      ensures phase == Advance(old(phase), period) && 0 <= phase < period
      ensures var redraw := old(phase) + 1 >= period && params.waveTypeValue == Noise;
        && (redraw ==> rng == AdvancedBy(old(rng), NoiseSize))
        && (!redraw ==> rng == old(rng) && noiseBuffer[..] == old(noiseBuffer[..]))
      ensures x == Waveform(params.waveTypeValue, phase, period, squareDuty, noiseBuffer[..], sin)
      ensures params.waveTypeValue != Sine ==> -1.0 <= x <= 1.0
    {
      phase := phase + 1;
      if phase >= period {
        phase := phase % period;
        if params.waveTypeValue == Noise {
          RefreshNoise();
        }
      }
      x := Waveform(params.waveTypeValue, phase, period, squareDuty, noiseBuffer[..], sin);
    }

    /**
     * The low-pass filter (its cutoff swept and kept in [0, 0.1]), then the
     * high-pass filter, applied to the oscillator output `x`.
     */
    method Filter(x: real) returns (y: real)
      modifies this`fltp, this`fltdp, this`fltw, this`fltphp
      ensures fltw == Clamp(old(fltw) * fltwd, 0.0, 0.1) && 0.0 <= fltw <= 0.1
      ensures (fltp, fltdp) == LowPass(old(fltp), old(fltdp), x, fltw, fltdmp, params.lpfCutoffValue != 1.0)
      ensures y == fltphp == HighPass(old(fltphp), fltp - old(fltp), flthp)
    {
      var pp := fltp;
      fltw := fltw * fltwd;
      if fltw < 0.0 {
        fltw := 0.0;
      }
      if fltw > 0.1 {
        fltw := 0.1;
      }
      if params.lpfCutoffValue != 1.0 {
        fltdp := fltdp + (x - fltp) * fltw;
        fltdp := fltdp - fltdp * fltdmp;
        assert fltp + fltdp == LowPass(pp, old(fltdp), x, fltw, fltdmp, true).0;
      } else {
        fltp := x;
        fltdp := 0.0;
      }
      fltp := fltp + fltdp;

      fltphp := fltphp + (fltp - pp);
      fltphp := fltphp - fltphp * flthp;
      y := fltphp;
    }

    /** The phaser: `x` is written at slot `ipp & 1023` and mixed with the slot `iphase` behind it. */
    method Phase(x: real) returns (y: real)
      requires phaserBuffer.Length == PhaserSize && 0 <= ipp < PhaserSize && 0 <= iphase < PhaserSize
      modifies phaserBuffer, this`ipp
      ensures ipp == Low10(old(ipp) + 1)
      ensures phaserBuffer[..] == old(phaserBuffer[..])[Low10(old(ipp)) := x]
      ensures y == x + phaserBuffer[ReadSlot(old(ipp), iphase)]
      ensures Low10(old(ipp)) == old(ipp) && y == Echo(phaserBuffer[..], old(ipp), iphase)
      ensures phaserBuffer[..] == old(phaserBuffer[..])[old(ipp) := x]
    {
      phaserBuffer[Low10(ipp)] := x;
      y := x + phaserBuffer[ReadSlot(ipp, iphase)];
      ipp := Low10(ipp + 1);
    }

    /** The oscillator followed by the two filters: the sub-sample before the phaser. */
    method Tone() returns (y: real)
      requires Valid() && 8 <= period
      modifies this`phase, this`rng, noiseBuffer, this`fltp, this`fltdp, this`fltw, this`fltphp
      ensures Valid()
      ensures 0 <= phase < period && 0.0 <= fltw <= 0.1 && y == fltphp
      ensures rng.rand == old(rng.rand) && rng.seed == old(rng.seed) && old(rng.drawn) <= rng.drawn
    {
      var x := Oscillate();
      y := Filter(x);
    }

    /** One of the eight sub-samples: oscillator, filters and phaser, times the envelope volume. */
    method SubSample() returns (contribution: real)
      requires Valid() && 8 <= period && iphase <= PhaserSize - 1
      modifies this`phase, this`rng, noiseBuffer, this`fltp, this`fltdp, this`fltw, this`fltphp, phaserBuffer, this`ipp
      ensures Valid()
      ensures 0 <= phase < period && 0.0 <= fltw <= 0.1
      ensures rng.rand == old(rng.rand) && rng.seed == old(rng.seed) && old(rng.drawn) <= rng.drawn
      ensures ipp == Low10(old(ipp) + 1)
      ensures phaserBuffer[..] == old(phaserBuffer[..])[old(ipp) := phaserBuffer[old(ipp)]]
      ensures contribution == Echo(phaserBuffer[..], old(ipp), iphase) * envelopeVolume
    {
      var y := Tone();
      var z := Phase(y);
      contribution := z * envelopeVolume;
    }

    /** The pitch blocks run once per output sample: repeat, arpeggio, slide, vibrato and duty. */
    method PitchStep()
      modifies this`repeatTime, this`fperiod, this`period, this`fmaxperiod, this`fslide, this`fdslide,
        this`squareDuty, this`squareSlide, this`arpeggioModulation, this`arpeggioTime, this`arpeggioLimit,
        this`generating, this`vibratoPhase
      ensures 8 <= period && 0.0 <= squareDuty <= 0.5
      ensures generating ==> old(generating)
      ensures params.minFrequencyValue <= 0.0 ==> generating == old(generating)
    {
      RepeatStep();
      ArpeggioStep();
      SlideStep();
      VibratoStep();
      DutyStep();
    }

    /**
     * The control blocks run once per output sample: repeat, arpeggio,
     * slide, vibrato, duty, envelope, phaser and high-pass.
     */
    method Control()
      requires Valid() && generating
      modifies this`repeatTime, this`fperiod, this`period, this`fmaxperiod, this`fslide, this`fdslide,
        this`squareDuty, this`squareSlide, this`arpeggioModulation, this`arpeggioTime, this`arpeggioLimit,
        this`generating, this`vibratoPhase, this`envelopeTime, this`envelopeStage, this`envelopeVolume,
        this`fphase, this`iphase, this`flthp
      ensures Valid()
      ensures Position() == Envelope.Step(lengths, old(Position()))
      ensures params.minFrequencyValue <= 0.0 ==> (generating <==> envelopeStage < 3)
      ensures 8 <= period && 0 <= iphase <= PhaserSize - 1 && 0.0 <= squareDuty <= 0.5
      ensures flthpd != 0.0 ==> 0.00001 <= flthp <= 0.1
    {
      PitchStep();
      EnvelopeStep();
      PhaserStep();
      HighPassStep();
    }

    /**
     * One more sub-sample added to the running sum. `parts` holds the
     * contributions so far, the sub-samples of an output sample that started
     * writing the phaser ring at slot `a`.
     */
    method Accumulate(ghost a: nat, ghost parts: seq<real>, sum: real) returns (sum': real, ghost parts': seq<real>)
      requires Valid() && 8 <= period && 0 <= iphase <= PhaserSize - 1
      requires |parts| < Supersampling && sum == Total(parts) && ipp == Slot(a, |parts|)
      requires iphase <= PhaserSize - Supersampling ==> EchoParts(parts, phaserBuffer[..], a, iphase, envelopeVolume)
      modifies this`phase, this`rng, noiseBuffer, this`fltp, this`fltdp, this`fltw, this`fltphp, phaserBuffer, this`ipp
      ensures Valid()
      ensures 0 <= phase < period && 0.0 <= fltw <= 0.1
      ensures rng.rand == old(rng.rand) && rng.seed == old(rng.seed) && old(rng.drawn) <= rng.drawn
      ensures parts' == parts + [sum' - sum] && sum' == Total(parts') && ipp == Slot(a, |parts'|)
      ensures iphase <= PhaserSize - Supersampling ==> EchoParts(parts', phaserBuffer[..], a, iphase, envelopeVolume)
    {
      ghost var before := phaserBuffer[..];
      var c := SubSample();
      ghost var after := phaserBuffer[..];
      if iphase <= PhaserSize - Supersampling {
        EchoPartsExtend(parts, c, before, after, a, iphase, envelopeVolume);
      }
      TotalAppend(parts, c);
      ModShift(a, |parts|);
      sum' := sum + c;
      parts' := parts + [c];
    }

    /**
     * The eight sub-samples of one output sample, averaged, scaled by 0.2 and
     * clamped to [-1, 1]. `parts` are the eight contributions: sub-sample `j`
     * wrote slot `ipp + j` of the phaser ring and mixed it with the slot
     * `iphase` behind; unless that slot is one the later sub-samples
     * overwrite (a delay above 1016), both values are still in the ring.
     */
    method Mix() returns (s: real, ghost parts: seq<real>)
      requires Valid() && 8 <= period && 0 <= iphase <= PhaserSize - 1
      modifies this`phase, this`rng, noiseBuffer, this`fltp, this`fltdp, this`fltw, this`fltphp, phaserBuffer, this`ipp
      ensures Valid()
      ensures -1.0 <= s <= 1.0
      ensures |parts| == Supersampling && s == Clamp(Total(parts) / Supersampling as real * SampleScale, -1.0, 1.0)
      ensures ipp == Slot(old(ipp), Supersampling)
      ensures iphase <= PhaserSize - Supersampling ==> EchoParts(parts, phaserBuffer[..], old(ipp), iphase, envelopeVolume)
      ensures 0 <= phase < period && 0.0 <= fltw <= 0.1
      ensures rng.rand == old(rng.rand) && rng.seed == old(rng.seed) && old(rng.drawn) <= rng.drawn
    {
      var ssample := 0.0;
      parts := [];
      for si := 0 to Supersampling
        invariant Valid()
        invariant si > 0 ==> 0 <= phase < period && 0.0 <= fltw <= 0.1
        invariant rng.rand == old(rng.rand) && rng.seed == old(rng.seed) && old(rng.drawn) <= rng.drawn
        invariant |parts| == si && ssample == Total(parts) && ipp == Slot(old(ipp), si)
        invariant iphase <= PhaserSize - Supersampling ==> EchoParts(parts, phaserBuffer[..], old(ipp), iphase, envelopeVolume)
      {
        ssample, parts := Accumulate(old(ipp), parts, ssample);
      }

      ssample := ssample / Supersampling as real * SampleScale;
      if ssample > 1.0 {
        ssample := 1.0;
      }
      if ssample < -1.0 {
        ssample := -1.0;
      }
      s := ssample;
    }

    /** One output sample: the control blocks, then the mix of eight sub-samples. */
    method NextSample() returns (s: real)
      requires Valid() && generating
      modifies this, phaserBuffer, noiseBuffer
      ensures Valid()
      ensures -1.0 <= s <= 1.0
      ensures Position() == Envelope.Step(lengths, old(Position()))
      ensures params.minFrequencyValue <= 0.0 ==> (generating <==> envelopeStage < 3)
      ensures 8 <= period && 0 <= phase < period && 0 <= iphase <= PhaserSize - 1
      ensures 0.0 <= squareDuty <= 0.5 && 0.0 <= fltw <= 0.1
      ensures flthpd != 0.0 ==> 0.00001 <= flthp <= 0.1
      ensures rng.rand == old(rng.rand) && rng.seed == old(rng.seed) && old(rng.drawn) <= rng.drawn
    {
      Control();
      ghost var parts;
      s, parts := Mix();
    }
  }

  /** The generated sound, as raylib's `Wave` describes it. */
  datatype Wave = Wave(sampleCount: nat, sampleRate: nat, sampleSize: nat, channels: nat, data: seq<real>)

  /**
   * GenerateWave: runs the loop for at most ten seconds of samples, storing
   * each sample, until the sound ends. The count is the index of the first
   * iteration that finds the sound over, so the sample on which it ended is
   * kept; a sound still going after the last iteration gets a count of 0.
   */
  method GenerateWave(params: Params, rng: Rng, sin: real -> real) returns (wave: Wave, next: Rng)
    ensures wave.sampleRate == SampleRate && wave.sampleSize == 32 && wave.channels == 1
    ensures |wave.data| == wave.sampleCount < MaxSamples
    ensures forall k | 0 <= k < |wave.data| :: -1.0 <= wave.data[k] <= 1.0
    ensures wave.sampleCount <= Envelope.Duration(EnvelopeLengths(Correct(params)))
    ensures var duration := Envelope.Duration(EnvelopeLengths(Correct(params)));
      Correct(params).minFrequencyValue <= 0.0 ==>
        wave.sampleCount == (if duration < MaxSamples then duration else 0)
    ensures next.rand == rng.rand && next.seed == Seeded(rng, params.randSeed).seed
  {
    var synth := new Synth(params, rng, sin);
    var lengths := synth.lengths;
    var duration := Envelope.Duration(lengths);
    var buffer := new real[MaxSamples](_ => 0.0);
    var sampleCount := 0;
    var i := 0;
    while i < MaxSamples
      invariant i <= MaxSamples && i <= duration
      invariant synth.Valid() && fresh(synth.phaserBuffer) && fresh(synth.noiseBuffer)
      invariant buffer != synth.phaserBuffer && buffer != synth.noiseBuffer
      invariant synth.params == Correct(params) && synth.lengths == lengths
      invariant synth.Position() == Envelope.At(lengths, i)
      invariant synth.generating ==> i < duration
      invariant synth.params.minFrequencyValue <= 0.0 ==> (synth.generating <==> i < duration)
      invariant forall k | 0 <= k < i :: -1.0 <= buffer[k] <= 1.0
      invariant synth.rng.rand == rng.rand && synth.rng.seed == Seeded(rng, params.randSeed).seed
      invariant sampleCount == 0
    {
      if !synth.generating {
        sampleCount := i;
        break;
      }
      Envelope.AtStep(lengths, i);
      var s := synth.NextSample();
      buffer[i] := s;
      i := i + 1;
    }
    wave := Wave(sampleCount, SampleRate, 32, 1, buffer[..sampleCount]);
    next := synth.rng;
  }
}
