/**
 * The sound generators behind the tool's buttons. Each preset starts from
 * ResetWaveParams (which restarts the random sequence from a fresh seed) and
 * then draws the fields that give the sound its character; GenRandomize draws
 * every float field and GenMutate nudges them. Every generator is a
 * transformer of the parameter record and of the random source.
 */
module Generators {
  import opened Random
  import opened Params
  import opened Numeric

  /** What a preset leaves behind in the random source: the sequence restarted from the record's seed. */
  ghost predicate Reseeded(rng: Rng, p: Params, next: Rng)
  {
    next.rand == rng.rand && next.seed == p.randSeed
  }

  /** GenPickupCoin: a short, bright blip with a possible upward pitch jump. */
  method GenPickupCoin(params: Params, rng: Rng) returns (p: Params, next: Rng)
    ensures 1 <= p.randSeed <= 0xFFFE && Reseeded(rng, p, next)
    ensures p == Defaults(p.randSeed).(
      startFrequencyValue := p.startFrequencyValue, sustainTimeValue := p.sustainTimeValue,
      decayTimeValue := p.decayTimeValue, sustainPunchValue := p.sustainPunchValue,
      changeSpeedValue := p.changeSpeedValue, changeAmountValue := p.changeAmountValue)
    ensures 0.4 <= p.startFrequencyValue <= 0.9
    ensures 0.0 <= p.sustainTimeValue <= 0.1 && 0.1 <= p.decayTimeValue <= 0.5
    ensures 0.3 <= p.sustainPunchValue <= 0.6
    ensures (p.changeSpeedValue == 0.0 && p.changeAmountValue == 0.0)
         || (0.5 <= p.changeSpeedValue <= 0.7 && 0.2 <= p.changeAmountValue <= 0.6)
  {
    p, next := ResetWaveParams(params, rng);
    var x, coin;

    x, next := Frnd(next, 0.5);
    p := p.(startFrequencyValue := 0.4 + x);
    p := p.(attackTimeValue := 0.0);
    x, next := Frnd(next, 0.1);
    p := p.(sustainTimeValue := x);
    x, next := Frnd(next, 0.4);
    p := p.(decayTimeValue := 0.1 + x);
    x, next := Frnd(next, 0.3);
    p := p.(sustainPunchValue := 0.3 + x);

    coin, next := GetRandomValue(next, 0, 1);
    if coin != 0 {
      x, next := Frnd(next, 0.2);
      p := p.(changeSpeedValue := 0.5 + x);
      x, next := Frnd(next, 0.4);
      p := p.(changeAmountValue := 0.2 + x);
    }
  }

  /** GenLaserShoot: a falling tone, either from a high or from a wide start. */
  method GenLaserShoot(params: Params, rng: Rng) returns (p: Params, next: Rng)
    ensures 1 <= p.randSeed <= 0xFFFE && Reseeded(rng, p, next)
    ensures p == Defaults(p.randSeed).(
      waveTypeValue := p.waveTypeValue,
      startFrequencyValue := p.startFrequencyValue, minFrequencyValue := p.minFrequencyValue,
      slideValue := p.slideValue, squareDutyValue := p.squareDutyValue, dutySweepValue := p.dutySweepValue,
      sustainTimeValue := p.sustainTimeValue, decayTimeValue := p.decayTimeValue,
      sustainPunchValue := p.sustainPunchValue, phaserOffsetValue := p.phaserOffsetValue,
      phaserSweepValue := p.phaserSweepValue, hpfCutoffValue := p.hpfCutoffValue)
    ensures 0 <= p.waveTypeValue <= 2
    ensures (0.5 <= p.startFrequencyValue <= 1.0 && 0.2 <= p.minFrequencyValue <= p.startFrequencyValue - 0.2
             && -0.35 <= p.slideValue <= -0.15)
         || (0.3 <= p.startFrequencyValue <= 0.9 && 0.0 <= p.minFrequencyValue <= 0.1
             && -0.65 <= p.slideValue <= -0.35)
    ensures p.minFrequencyValue < p.startFrequencyValue
    ensures (0.0 <= p.squareDutyValue <= 0.5 && 0.0 <= p.dutySweepValue <= 0.2)
         || (0.4 <= p.squareDutyValue <= 0.9 && -0.7 <= p.dutySweepValue <= 0.0)
    ensures 0.1 <= p.sustainTimeValue <= 0.3 && 0.0 <= p.decayTimeValue <= 0.4
    ensures 0.0 <= p.sustainPunchValue <= 0.3
    ensures 0.0 <= p.phaserOffsetValue <= 0.2 && -0.2 <= p.phaserSweepValue <= 0.0
    ensures 0.0 <= p.hpfCutoffValue <= 0.3
  {
    p, next := ResetWaveParams(params, rng);
    var r;

    r, next := GetRandomValue(next, 0, 2);
    p := p.(waveTypeValue := r);
    if p.waveTypeValue == 2 {
      r, next := GetRandomValue(next, 0, 1);
      if r != 0 {
        r, next := GetRandomValue(next, 0, 1);
        p := p.(waveTypeValue := r);
      }
    }

    p, next := LaserPitch(p, next);
    p, next := LaserDuty(p, next);
    p, next := LaserEnvelope(p, next);
  }

  /** The envelope and effects block of GenLaserShoot: a short envelope, maybe punch, a phaser and a high-pass filter. */
  method LaserEnvelope(params: Params, rng: Rng) returns (p: Params, next: Rng)
    ensures p == params.(attackTimeValue := 0.0, sustainTimeValue := p.sustainTimeValue,
      decayTimeValue := p.decayTimeValue, sustainPunchValue := p.sustainPunchValue,
      phaserOffsetValue := p.phaserOffsetValue, phaserSweepValue := p.phaserSweepValue,
      hpfCutoffValue := p.hpfCutoffValue)
    ensures 0.1 <= p.sustainTimeValue <= 0.3 && 0.0 <= p.decayTimeValue <= 0.4
    ensures p.sustainPunchValue == params.sustainPunchValue || 0.0 <= p.sustainPunchValue <= 0.3
    ensures (p.phaserOffsetValue == params.phaserOffsetValue && p.phaserSweepValue == params.phaserSweepValue)
         || (0.0 <= p.phaserOffsetValue <= 0.2 && -0.2 <= p.phaserSweepValue <= 0.0)
    ensures p.hpfCutoffValue == params.hpfCutoffValue || 0.0 <= p.hpfCutoffValue <= 0.3
    ensures next.rand == rng.rand && next.seed == rng.seed
  {
    p, next := params, rng;
    var x, r;
    p := p.(attackTimeValue := 0.0);
    x, next := Frnd(next, 0.2);
    p := p.(sustainTimeValue := 0.1 + x);
    x, next := Frnd(next, 0.4);
    p := p.(decayTimeValue := x);

    r, next := GetRandomValue(next, 0, 1);
    if r != 0 {
      x, next := Frnd(next, 0.3);
      p := p.(sustainPunchValue := x);
    }

    r, next := GetRandomValue(next, 0, 2);
    if r == 0 {
      x, next := Frnd(next, 0.2);
      p := p.(phaserOffsetValue := x);
      x, next := Frnd(next, 0.2);
      p := p.(phaserSweepValue := -x);
    }

    r, next := GetRandomValue(next, 0, 1);
    if r != 0 {
      x, next := Frnd(next, 0.3);
      p := p.(hpfCutoffValue := x);
    }
  }

  /** The pitch block of GenLaserShoot: a falling tone, the minimum kept below the start. */
  method LaserPitch(params: Params, rng: Rng) returns (p: Params, next: Rng)
    ensures p == params.(startFrequencyValue := p.startFrequencyValue,
      minFrequencyValue := p.minFrequencyValue, slideValue := p.slideValue)
    ensures (0.5 <= p.startFrequencyValue <= 1.0 && 0.2 <= p.minFrequencyValue <= p.startFrequencyValue - 0.2
             && -0.35 <= p.slideValue <= -0.15)
         || (0.3 <= p.startFrequencyValue <= 0.9 && 0.0 <= p.minFrequencyValue <= 0.1
             && -0.65 <= p.slideValue <= -0.35)
    ensures next.rand == rng.rand && next.seed == rng.seed
  {
    p, next := params, rng;
    var x, r;
    x, next := Frnd(next, 0.5);
    p := p.(startFrequencyValue := 0.5 + x);
    x, next := Frnd(next, 0.6);
    p := p.(minFrequencyValue := p.startFrequencyValue - 0.2 - x);
    if p.minFrequencyValue < 0.2 {
      p := p.(minFrequencyValue := 0.2);
    }
    x, next := Frnd(next, 0.2);
    p := p.(slideValue := -0.15 - x);

    r, next := GetRandomValue(next, 0, 2);
    if r == 0 {
      x, next := Frnd(next, 0.6);
      p := p.(startFrequencyValue := 0.3 + x);
      x, next := Frnd(next, 0.1);
      p := p.(minFrequencyValue := x);
      x, next := Frnd(next, 0.3);
      p := p.(slideValue := -0.35 - x);
    }
  }

  /** The duty block of GenLaserShoot: a thin rising or a wide falling duty. */
  method LaserDuty(params: Params, rng: Rng) returns (p: Params, next: Rng)
    ensures p == params.(squareDutyValue := p.squareDutyValue, dutySweepValue := p.dutySweepValue)
    ensures (0.0 <= p.squareDutyValue <= 0.5 && 0.0 <= p.dutySweepValue <= 0.2)
         || (0.4 <= p.squareDutyValue <= 0.9 && -0.7 <= p.dutySweepValue <= 0.0)
    ensures next.rand == rng.rand && next.seed == rng.seed
  {
    p, next := params, rng;
    var x, r;
    r, next := GetRandomValue(next, 0, 1);
    if r != 0 {
      x, next := Frnd(next, 0.5);
      p := p.(squareDutyValue := x);
      x, next := Frnd(next, 0.2);
      p := p.(dutySweepValue := x);
    } else {
      x, next := Frnd(next, 0.5);
      p := p.(squareDutyValue := 0.4 + x);
      x, next := Frnd(next, 0.7);
      p := p.(dutySweepValue := -x);
    }
  }

  /** GenExplosion: noise with a low, squared start frequency. */
  method GenExplosion(params: Params, rng: Rng) returns (p: Params, next: Rng)
    ensures 1 <= p.randSeed <= 0xFFFE && Reseeded(rng, p, next)
    ensures p == Defaults(p.randSeed).(
      waveTypeValue := p.waveTypeValue,
      startFrequencyValue := p.startFrequencyValue, slideValue := p.slideValue,
      repeatSpeedValue := p.repeatSpeedValue, sustainTimeValue := p.sustainTimeValue,
      decayTimeValue := p.decayTimeValue, phaserOffsetValue := p.phaserOffsetValue,
      phaserSweepValue := p.phaserSweepValue, sustainPunchValue := p.sustainPunchValue,
      vibratoDepthValue := p.vibratoDepthValue, vibratoSpeedValue := p.vibratoSpeedValue,
      changeSpeedValue := p.changeSpeedValue, changeAmountValue := p.changeAmountValue)
    ensures p.waveTypeValue == Noise
    ensures 0.01 <= p.startFrequencyValue <= 0.81
    ensures -0.4 <= p.slideValue <= 0.3
    ensures p.repeatSpeedValue == 0.0 || 0.3 <= p.repeatSpeedValue <= 0.8
    ensures 0.1 <= p.sustainTimeValue <= 0.4 && 0.0 <= p.decayTimeValue <= 0.5
    ensures -0.3 <= p.phaserOffsetValue <= 0.6 && -0.3 <= p.phaserSweepValue <= 0.0
    ensures 0.2 <= p.sustainPunchValue <= 0.8
    ensures 0.0 <= p.vibratoDepthValue <= 0.7 && 0.0 <= p.vibratoSpeedValue <= 0.6
    ensures (p.changeSpeedValue == 0.0 && p.changeAmountValue == 0.0)
         || (0.6 <= p.changeSpeedValue <= 0.9 && -0.8 <= p.changeAmountValue <= 0.8)
  {
    p, next := ResetWaveParams(params, rng);
    var x, r;

    p := p.(waveTypeValue := 3);

    p, next := ExplosionPitch(p, next);

    p := p.(attackTimeValue := 0.0);
    x, next := Frnd(next, 0.3);
    p := p.(sustainTimeValue := 0.1 + x);
    x, next := Frnd(next, 0.5);
    p := p.(decayTimeValue := x);

    r, next := GetRandomValue(next, 0, 1);
    if r == 0 {
      x, next := Frnd(next, 0.9);
      p := p.(phaserOffsetValue := -0.3 + x);
      x, next := Frnd(next, 0.3);
      p := p.(phaserSweepValue := -x);
    }

    x, next := Frnd(next, 0.6);
    p := p.(sustainPunchValue := 0.2 + x);

    r, next := GetRandomValue(next, 0, 1);
    if r != 0 {
      x, next := Frnd(next, 0.7);
      p := p.(vibratoDepthValue := x);
      x, next := Frnd(next, 0.6);
      p := p.(vibratoSpeedValue := x);
    }

    r, next := GetRandomValue(next, 0, 2);
    if r == 0 {
      x, next := Frnd(next, 0.3);
      p := p.(changeSpeedValue := 0.6 + x);
      x, next := Frnd(next, 1.6);
      p := p.(changeAmountValue := 0.8 - x);
    }
  }

  /** The pitch block of GenExplosion: a squared start frequency, a slide, and maybe a repeat. */
  method ExplosionPitch(params: Params, rng: Rng) returns (p: Params, next: Rng)
    ensures p == params.(startFrequencyValue := p.startFrequencyValue, slideValue := p.slideValue,
      repeatSpeedValue := p.repeatSpeedValue)
    ensures 0.01 <= p.startFrequencyValue <= 0.81
    ensures -0.4 <= p.slideValue <= 0.3
    ensures p.repeatSpeedValue == params.repeatSpeedValue || 0.3 <= p.repeatSpeedValue <= 0.8
    ensures next.rand == rng.rand && next.seed == rng.seed
  {
    p, next := params, rng;
    var x, r;
    r, next := GetRandomValue(next, 0, 1);
    if r != 0 {
      x, next := Frnd(next, 0.4);
      p := p.(startFrequencyValue := 0.1 + x);
      x, next := Frnd(next, 0.4);
      p := p.(slideValue := -0.1 + x);
    } else {
      x, next := Frnd(next, 0.7);
      p := p.(startFrequencyValue := 0.2 + x);
      x, next := Frnd(next, 0.2);
      p := p.(slideValue := -0.2 - x);
    }

    SquareBounds(p.startFrequencyValue, 0.1, 0.9);
    p := p.(startFrequencyValue := p.startFrequencyValue * p.startFrequencyValue);

    r, next := GetRandomValue(next, 0, 4);
    if r == 0 {
      p := p.(slideValue := 0.0);
    }
    r, next := GetRandomValue(next, 0, 2);
    if r == 0 {
      x, next := Frnd(next, 0.5);
      p := p.(repeatSpeedValue := 0.3 + x);
    }
  }

  /** GenPowerup: a rising tone, either repeated or with vibrato. */
  method GenPowerup(params: Params, rng: Rng) returns (p: Params, next: Rng)
    ensures 1 <= p.randSeed <= 0xFFFE && Reseeded(rng, p, next)
    ensures p == Defaults(p.randSeed).(
      waveTypeValue := p.waveTypeValue, squareDutyValue := p.squareDutyValue,
      startFrequencyValue := p.startFrequencyValue, slideValue := p.slideValue,
      repeatSpeedValue := p.repeatSpeedValue, vibratoDepthValue := p.vibratoDepthValue,
      vibratoSpeedValue := p.vibratoSpeedValue, sustainTimeValue := p.sustainTimeValue,
      decayTimeValue := p.decayTimeValue)
    ensures (p.waveTypeValue == Sawtooth && p.squareDutyValue == 0.0)
         || (p.waveTypeValue == Square && 0.0 <= p.squareDutyValue <= 0.6)
    ensures 0.2 <= p.startFrequencyValue <= 0.5
    ensures (0.1 <= p.slideValue <= 0.5 && 0.4 <= p.repeatSpeedValue <= 0.8
             && p.vibratoDepthValue == 0.0 && p.vibratoSpeedValue == 0.0)
         || (0.05 <= p.slideValue <= 0.25 && p.repeatSpeedValue == 0.0
             && 0.0 <= p.vibratoDepthValue <= 0.7 && 0.0 <= p.vibratoSpeedValue <= 0.6)
    ensures 0.0 <= p.sustainTimeValue <= 0.4 && 0.1 <= p.decayTimeValue <= 0.5
  {
    p, next := ResetWaveParams(params, rng);
    var x, r;

    r, next := GetRandomValue(next, 0, 1);
    if r != 0 {
      p := p.(waveTypeValue := 1);
    } else {
      x, next := Frnd(next, 0.6);
      p := p.(squareDutyValue := x);
    }

    r, next := GetRandomValue(next, 0, 1);
    if r != 0 {
      x, next := Frnd(next, 0.3);
      p := p.(startFrequencyValue := 0.2 + x);
      x, next := Frnd(next, 0.4);
      p := p.(slideValue := 0.1 + x);
      x, next := Frnd(next, 0.4);
      p := p.(repeatSpeedValue := 0.4 + x);
    } else {
      x, next := Frnd(next, 0.3);
      p := p.(startFrequencyValue := 0.2 + x);
      x, next := Frnd(next, 0.2);
      p := p.(slideValue := 0.05 + x);

      r, next := GetRandomValue(next, 0, 1);
      if r != 0 {
        x, next := Frnd(next, 0.7);
        p := p.(vibratoDepthValue := x);
        x, next := Frnd(next, 0.6);
        p := p.(vibratoSpeedValue := x);
      }
    }

    p := p.(attackTimeValue := 0.0);
    x, next := Frnd(next, 0.4);
    p := p.(sustainTimeValue := x);
    x, next := Frnd(next, 0.4);
    p := p.(decayTimeValue := 0.1 + x);
  }

  /** GenHitHurt: a short falling square, sawtooth or noise burst. */
  method GenHitHurt(params: Params, rng: Rng) returns (p: Params, next: Rng)
    ensures 1 <= p.randSeed <= 0xFFFE && Reseeded(rng, p, next)
    ensures p == Defaults(p.randSeed).(
      waveTypeValue := p.waveTypeValue, squareDutyValue := p.squareDutyValue,
      startFrequencyValue := p.startFrequencyValue, slideValue := p.slideValue,
      sustainTimeValue := p.sustainTimeValue, decayTimeValue := p.decayTimeValue,
      hpfCutoffValue := p.hpfCutoffValue)
    ensures p.waveTypeValue == Square || p.waveTypeValue == Sawtooth || p.waveTypeValue == Noise
    ensures p.waveTypeValue == Square ==> 0.0 <= p.squareDutyValue <= 0.6
    ensures p.waveTypeValue != Square ==> p.squareDutyValue == 0.0
    ensures 0.2 <= p.startFrequencyValue <= 0.8 && -0.7 <= p.slideValue <= -0.3
    ensures 0.0 <= p.sustainTimeValue <= 0.1 && 0.1 <= p.decayTimeValue <= 0.3
    ensures 0.0 <= p.hpfCutoffValue <= 0.3
  {
    p, next := ResetWaveParams(params, rng);
    var x, r;

    r, next := GetRandomValue(next, 0, 2);
    p := p.(waveTypeValue := r);
    if p.waveTypeValue == 2 {
      p := p.(waveTypeValue := 3);
    }
    if p.waveTypeValue == 0 {
      x, next := Frnd(next, 0.6);
      p := p.(squareDutyValue := x);
    }

    x, next := Frnd(next, 0.6);
    p := p.(startFrequencyValue := 0.2 + x);
    x, next := Frnd(next, 0.4);
    p := p.(slideValue := -0.3 - x);
    p := p.(attackTimeValue := 0.0);
    x, next := Frnd(next, 0.1);
    p := p.(sustainTimeValue := x);
    x, next := Frnd(next, 0.2);
    p := p.(decayTimeValue := 0.1 + x);

    r, next := GetRandomValue(next, 0, 1);
    if r != 0 {
      x, next := Frnd(next, 0.3);
      p := p.(hpfCutoffValue := x);
    }
  }

  /** GenJump: a rising square wave, possibly filtered. */
  method GenJump(params: Params, rng: Rng) returns (p: Params, next: Rng)
    ensures 1 <= p.randSeed <= 0xFFFE && Reseeded(rng, p, next)
    ensures p == Defaults(p.randSeed).(
      squareDutyValue := p.squareDutyValue, startFrequencyValue := p.startFrequencyValue,
      slideValue := p.slideValue, sustainTimeValue := p.sustainTimeValue,
      decayTimeValue := p.decayTimeValue, hpfCutoffValue := p.hpfCutoffValue,
      lpfCutoffValue := p.lpfCutoffValue)
    ensures p.waveTypeValue == Square
    ensures 0.0 <= p.squareDutyValue <= 0.6
    ensures 0.3 <= p.startFrequencyValue <= 0.6 && 0.1 <= p.slideValue <= 0.3
    ensures 0.1 <= p.sustainTimeValue <= 0.4 && 0.1 <= p.decayTimeValue <= 0.3
    ensures 0.0 <= p.hpfCutoffValue <= 0.3 && 0.4 <= p.lpfCutoffValue <= 1.0
  {
    p, next := ResetWaveParams(params, rng);
    var x, r;

    p := p.(waveTypeValue := 0);
    x, next := Frnd(next, 0.6);
    p := p.(squareDutyValue := x);
    x, next := Frnd(next, 0.3);
    p := p.(startFrequencyValue := 0.3 + x);
    x, next := Frnd(next, 0.2);
    p := p.(slideValue := 0.1 + x);
    p := p.(attackTimeValue := 0.0);
    x, next := Frnd(next, 0.3);
    p := p.(sustainTimeValue := 0.1 + x);
    x, next := Frnd(next, 0.2);
    p := p.(decayTimeValue := 0.1 + x);

    r, next := GetRandomValue(next, 0, 1);
    if r != 0 {
      x, next := Frnd(next, 0.3);
      p := p.(hpfCutoffValue := x);
    }
    r, next := GetRandomValue(next, 0, 1);
    if r != 0 {
      x, next := Frnd(next, 0.6);
      p := p.(lpfCutoffValue := 1.0 - x);
    }
  }

  /** GenBlipSelect: a short square or sawtooth blip through a fixed high-pass filter. */
  method GenBlipSelect(params: Params, rng: Rng) returns (p: Params, next: Rng)
    ensures 1 <= p.randSeed <= 0xFFFE && Reseeded(rng, p, next)
    ensures p == Defaults(p.randSeed).(
      waveTypeValue := p.waveTypeValue, squareDutyValue := p.squareDutyValue,
      startFrequencyValue := p.startFrequencyValue, sustainTimeValue := p.sustainTimeValue,
      decayTimeValue := p.decayTimeValue, hpfCutoffValue := p.hpfCutoffValue)
    ensures p.waveTypeValue == Square || p.waveTypeValue == Sawtooth
    ensures p.waveTypeValue == Square ==> 0.0 <= p.squareDutyValue <= 0.6
    ensures p.waveTypeValue != Square ==> p.squareDutyValue == 0.0
    ensures 0.2 <= p.startFrequencyValue <= 0.6
    ensures 0.1 <= p.sustainTimeValue <= 0.2 && 0.0 <= p.decayTimeValue <= 0.2
    ensures p.hpfCutoffValue == 0.1
  {
    p, next := ResetWaveParams(params, rng);
    var x, r;

    r, next := GetRandomValue(next, 0, 1);
    p := p.(waveTypeValue := r);
    if p.waveTypeValue == 0 {
      x, next := Frnd(next, 0.6);
      p := p.(squareDutyValue := x);
    }
    x, next := Frnd(next, 0.4);
    p := p.(startFrequencyValue := 0.2 + x);
    p := p.(attackTimeValue := 0.0);
    x, next := Frnd(next, 0.1);
    p := p.(sustainTimeValue := 0.1 + x);
    x, next := Frnd(next, 0.2);
    p := p.(decayTimeValue := x);
    p := p.(hpfCutoffValue := 0.1);
  }

  /** `frnd(2.0f) - 1.0f`: a value in [-1, 1]. */
  method SignedUnit(rng: Rng) returns (v: real, next: Rng)
    ensures -1.0 <= v <= 1.0 && next == Advanced(rng)
  {
    v, next := Frnd(rng, 2.0);
    v := v - 1.0;
  }

  /** `pow(frnd(2.0f) - 1.0f, n)`: a value in [-1, 1], never negative for an even `n`. */
  method SignedPow(rng: Rng, n: nat) returns (v: real, next: Rng)
    ensures -1.0 <= v <= 1.0 && next == Advanced(rng)
    ensures n % 2 == 0 ==> 0.0 <= v
  {
    var x;
    x, next := SignedUnit(rng);
    v := Pow(x, n);
    PowUnit(x, n);
    if n % 2 == 0 {
      PowEven(x, n / 2);
    }
  }

  /**
   * The audibility guard of GenRandomize: when attack, sustain and decay add up
   * to less than 0.2, sustain and decay each gain between 0.2 and 0.5;
   * otherwise nothing changes and nothing is drawn.
   */
  method PadEnvelope(attack: real, sustain: real, decay: real, rng: Rng) returns (s: real, d: real, next: Rng)
    ensures attack + sustain + decay < 0.2 ==>
      sustain + 0.2 <= s <= sustain + 0.5 && decay + 0.2 <= d <= decay + 0.5
      && next == Advanced(Advanced(rng))
    ensures attack + sustain + decay >= 0.2 ==> s == sustain && d == decay && next == rng
  {
    s, d, next := sustain, decay, rng;
    if attack + sustain + decay < 0.2 {
      var x;
      x, next := Frnd(next, 0.3);
      s := s + 0.2 + x;
      x, next := Frnd(next, 0.3);
      d := d + 0.2 + x;
    }
  }

  /** The pitch block of GenRandomize. */
  method RandomPitch(params: Params, rng: Rng) returns (p: Params, next: Rng)
    ensures p == params.(startFrequencyValue := p.startFrequencyValue, minFrequencyValue := 0.0,
      slideValue := p.slideValue)
    ensures -0.5 <= p.startFrequencyValue <= 1.5 && -1.0 <= p.slideValue <= 1.0
    ensures !(p.startFrequencyValue > 0.7 && p.slideValue > 0.2)
    ensures !(p.startFrequencyValue < 0.2 && p.slideValue < -0.05)
    ensures next.rand == rng.rand && next.seed == rng.seed && rng.drawn < next.drawn
  {
    p, next := params, rng;
    var x, r;
    x, next := SignedPow(next, 2);
    p := p.(startFrequencyValue := x);
    r, next := GetRandomValue(next, 0, 1);
    if r != 0 {
      x, next := SignedPow(next, 3);
      p := p.(startFrequencyValue := x + 0.5);
    }

    p := p.(minFrequencyValue := 0.0);
    x, next := SignedPow(next, 5);
    p := p.(slideValue := x);

    if p.startFrequencyValue > 0.7 && p.slideValue > 0.2 {
      p := p.(slideValue := -p.slideValue);
    }
    if p.startFrequencyValue < 0.2 && p.slideValue < -0.05 {
      p := p.(slideValue := -p.slideValue);
    }
  }

  /** The envelope block of GenRandomize, with its audibility guard. */
  method RandomEnvelope(params: Params, rng: Rng) returns (p: Params, next: Rng)
    ensures p == params.(attackTimeValue := p.attackTimeValue, sustainTimeValue := p.sustainTimeValue,
      decayTimeValue := p.decayTimeValue, sustainPunchValue := p.sustainPunchValue)
    ensures -1.0 <= p.attackTimeValue <= 1.0
    ensures 0.0 <= p.sustainTimeValue <= 1.5 && -1.0 <= p.decayTimeValue <= 1.5
    ensures 0.0 <= p.sustainPunchValue <= 0.64
    ensures next.rand == rng.rand && next.seed == rng.seed && rng.drawn < next.drawn
  {
    p, next := params, rng;
    var x;
    x, next := SignedPow(next, 3);
    p := p.(attackTimeValue := x);
    x, next := SignedPow(next, 2);
    p := p.(sustainTimeValue := x);
    x, next := SignedUnit(next);
    p := p.(decayTimeValue := x);
    x, next := Frnd(next, 0.8);
    PowMonotone(x, 0.8, 2);
    p := p.(sustainPunchValue := Pow(x, 2));

    var s, d;
    s, d, next := PadEnvelope(p.attackTimeValue, p.sustainTimeValue, p.decayTimeValue, next);
    p := p.(sustainTimeValue := s, decayTimeValue := d);
  }

  /** The filter block of GenRandomize. */
  method RandomFilters(params: Params, rng: Rng) returns (p: Params, next: Rng)
    ensures p == params.(lpfResonanceValue := p.lpfResonanceValue, lpfCutoffValue := p.lpfCutoffValue,
      lpfCutoffSweepValue := p.lpfCutoffSweepValue, hpfCutoffValue := p.hpfCutoffValue,
      hpfCutoffSweepValue := p.hpfCutoffSweepValue)
    ensures -1.0 <= p.lpfResonanceValue <= 1.0
    ensures 0.0 <= p.lpfCutoffValue <= 1.0 && -1.0 <= p.lpfCutoffSweepValue <= 1.0
    ensures !(p.lpfCutoffValue < 0.1 && p.lpfCutoffSweepValue < -0.05)
    ensures 0.0 <= p.hpfCutoffValue <= 1.0 && -1.0 <= p.hpfCutoffSweepValue <= 1.0
    ensures next.rand == rng.rand && next.seed == rng.seed && rng.drawn < next.drawn
  {
    p, next := params, rng;
    var x;
    x, next := SignedUnit(next);
    p := p.(lpfResonanceValue := x);
    x, next := Frnd(next, 1.0);
    PowFraction(x, 3);
    p := p.(lpfCutoffValue := 1.0 - Pow(x, 3));
    x, next := SignedPow(next, 3);
    p := p.(lpfCutoffSweepValue := x);

    if p.lpfCutoffValue < 0.1 && p.lpfCutoffSweepValue < -0.05 {
      p := p.(lpfCutoffSweepValue := -p.lpfCutoffSweepValue);
    }

    x, next := Frnd(next, 1.0);
    PowFraction(x, 5);
    p := p.(hpfCutoffValue := Pow(x, 5));
    x, next := SignedPow(next, 5);
    p := p.(hpfCutoffSweepValue := x);
  }

  /**
   * GenRandomize: draws a new seed (without restarting the sequence) and every
   * float field, keeping the wave type. Pitch never both starts high and
   * rises fast, or starts low and falls fast; the low-pass filter never both
   * starts nearly closed and closes further.
   */
  method GenRandomize(params: Params, rng: Rng) returns (p: Params, next: Rng)
    ensures 0 <= p.randSeed <= 0xFFFE
    ensures next.rand == rng.rand && next.seed == rng.seed && rng.drawn < next.drawn
    ensures p.waveTypeValue == params.waveTypeValue
    ensures p.minFrequencyValue == 0.0
    ensures -0.5 <= p.startFrequencyValue <= 1.5
    ensures -1.0 <= p.slideValue <= 1.0
    ensures !(p.startFrequencyValue > 0.7 && p.slideValue > 0.2)
    ensures !(p.startFrequencyValue < 0.2 && p.slideValue < -0.05)
    ensures -1.0 <= p.deltaSlideValue <= 1.0
    ensures -1.0 <= p.squareDutyValue <= 1.0 && -1.0 <= p.dutySweepValue <= 1.0
    ensures -1.0 <= p.vibratoDepthValue <= 1.0 && -1.0 <= p.vibratoSpeedValue <= 1.0
    ensures -1.0 <= p.attackTimeValue <= 1.0
    ensures 0.0 <= p.sustainTimeValue <= 1.5 && -1.0 <= p.decayTimeValue <= 1.5
    ensures 0.0 <= p.sustainPunchValue <= 0.64
    ensures -1.0 <= p.lpfResonanceValue <= 1.0
    ensures 0.0 <= p.lpfCutoffValue <= 1.0 && -1.0 <= p.lpfCutoffSweepValue <= 1.0
    ensures !(p.lpfCutoffValue < 0.1 && p.lpfCutoffSweepValue < -0.05)
    ensures 0.0 <= p.hpfCutoffValue <= 1.0 && -1.0 <= p.hpfCutoffSweepValue <= 1.0
    ensures -1.0 <= p.phaserOffsetValue <= 1.0 && -1.0 <= p.phaserSweepValue <= 1.0
    ensures -1.0 <= p.repeatSpeedValue <= 1.0
    ensures -1.0 <= p.changeSpeedValue <= 1.0 && -1.0 <= p.changeAmountValue <= 1.0
  {
    p := params;
    var x, r;

    r, next := GetRandomValue(rng, 0, 0xFFFE);
    p := p.(randSeed := r);

    p, next := RandomPitch(p, next);

    x, next := SignedPow(next, 3);
    p := p.(deltaSlideValue := x);
    x, next := SignedUnit(next);
    p := p.(squareDutyValue := x);
    x, next := SignedPow(next, 3);
    p := p.(dutySweepValue := x);
    x, next := SignedPow(next, 3);
    p := p.(vibratoDepthValue := x);
    x, next := SignedUnit(next);
    p := p.(vibratoSpeedValue := x);
    p, next := RandomEnvelope(p, next);

    p, next := RandomFilters(p, next);
    x, next := SignedPow(next, 3);
    p := p.(phaserOffsetValue := x);
    x, next := SignedPow(next, 3);
    p := p.(phaserSweepValue := x);
    x, next := SignedUnit(next);
    p := p.(repeatSpeedValue := x);
    x, next := SignedUnit(next);
    p := p.(changeSpeedValue := x);
    x, next := SignedUnit(next);
    p := p.(changeAmountValue := x);
  }

  /** A mutation moves a value by at most 0.05 either way. */
  predicate Near(after: real, before: real)
  {
    -0.05 <= after - before <= 0.05
  }

  /** One line of GenMutate: on a heads, `v += frnd(0.1f) - 0.05f`. */
  method Nudge(v: real, rng: Rng) returns (w: real, next: Rng)
    ensures Near(w, v)
    ensures next.rand == rng.rand && next.seed == rng.seed && rng.drawn < next.drawn
  {
    var r;
    w := v;
    r, next := GetRandomValue(rng, 0, 1);
    if r != 0 {
      var x;
      x, next := Frnd(next, 0.1);
      w := v + x - 0.05;
    }
  }

  /**
   * GenMutate: each float field but the minimum frequency moves by at most
   * 0.05; the seed, the wave type and the minimum frequency stay as they were.
   */
  method GenMutate(params: Params, rng: Rng) returns (p: Params, next: Rng)
    ensures p.randSeed == params.randSeed && p.waveTypeValue == params.waveTypeValue
    ensures p.minFrequencyValue == params.minFrequencyValue
    ensures next.rand == rng.rand && next.seed == rng.seed && rng.drawn < next.drawn
    ensures Near(p.startFrequencyValue, params.startFrequencyValue)
    ensures Near(p.slideValue, params.slideValue) && Near(p.deltaSlideValue, params.deltaSlideValue)
    ensures Near(p.squareDutyValue, params.squareDutyValue) && Near(p.dutySweepValue, params.dutySweepValue)
    ensures Near(p.vibratoDepthValue, params.vibratoDepthValue) && Near(p.vibratoSpeedValue, params.vibratoSpeedValue)
    ensures Near(p.attackTimeValue, params.attackTimeValue) && Near(p.sustainTimeValue, params.sustainTimeValue)
    ensures Near(p.decayTimeValue, params.decayTimeValue) && Near(p.sustainPunchValue, params.sustainPunchValue)
    ensures Near(p.lpfResonanceValue, params.lpfResonanceValue) && Near(p.lpfCutoffValue, params.lpfCutoffValue)
    ensures Near(p.lpfCutoffSweepValue, params.lpfCutoffSweepValue)
    ensures Near(p.hpfCutoffValue, params.hpfCutoffValue) && Near(p.hpfCutoffSweepValue, params.hpfCutoffSweepValue)
    ensures Near(p.phaserOffsetValue, params.phaserOffsetValue) && Near(p.phaserSweepValue, params.phaserSweepValue)
    ensures Near(p.repeatSpeedValue, params.repeatSpeedValue)
    ensures Near(p.changeSpeedValue, params.changeSpeedValue) && Near(p.changeAmountValue, params.changeAmountValue)
  {
    p, next := params, rng;
    var v;
    v, next := Nudge(p.startFrequencyValue, next);
    p := p.(startFrequencyValue := v);
    v, next := Nudge(p.slideValue, next);
    p := p.(slideValue := v);
    v, next := Nudge(p.deltaSlideValue, next);
    p := p.(deltaSlideValue := v);
    v, next := Nudge(p.squareDutyValue, next);
    p := p.(squareDutyValue := v);
    v, next := Nudge(p.dutySweepValue, next);
    p := p.(dutySweepValue := v);
    v, next := Nudge(p.vibratoDepthValue, next);
    p := p.(vibratoDepthValue := v);
    v, next := Nudge(p.vibratoSpeedValue, next);
    p := p.(vibratoSpeedValue := v);
    v, next := Nudge(p.attackTimeValue, next);
    p := p.(attackTimeValue := v);
    v, next := Nudge(p.sustainTimeValue, next);
    p := p.(sustainTimeValue := v);
    v, next := Nudge(p.decayTimeValue, next);
    p := p.(decayTimeValue := v);
    v, next := Nudge(p.sustainPunchValue, next);
    p := p.(sustainPunchValue := v);
    v, next := Nudge(p.lpfResonanceValue, next);
    p := p.(lpfResonanceValue := v);
    v, next := Nudge(p.lpfCutoffValue, next);
    p := p.(lpfCutoffValue := v);
    v, next := Nudge(p.lpfCutoffSweepValue, next);
    p := p.(lpfCutoffSweepValue := v);
    v, next := Nudge(p.hpfCutoffValue, next);
    p := p.(hpfCutoffValue := v);
    v, next := Nudge(p.hpfCutoffSweepValue, next);
    p := p.(hpfCutoffSweepValue := v);
    v, next := Nudge(p.phaserOffsetValue, next);
    p := p.(phaserOffsetValue := v);
    v, next := Nudge(p.phaserSweepValue, next);
    p := p.(phaserSweepValue := v);
    v, next := Nudge(p.repeatSpeedValue, next);
    p := p.(repeatSpeedValue := v);
    v, next := Nudge(p.changeSpeedValue, next);
    p := p.(changeSpeedValue := v);
    v, next := Nudge(p.changeAmountValue, next);
    p := p.(changeAmountValue := v);
  }
}
