# rFXGen sound-parameter core, modelled in Dafny

rFXGen is a retro sound-effect generator in the sfxr tradition. A sound is
described by one `WaveParams` record: two `int`s (random seed, wave type) and
22 `float`s (envelope, frequency and slide, vibrato, tone change, square duty,
repeat, phaser and filter settings), 96 bytes in all. This project models the
tool's core:

- the record, and `ResetWaveParams`, which restores the documented defaults
  under a freshly drawn seed (`Params.dfy`);
- the parameter files (`ParamsFile.dfy`):
  - `SaveWaveParams` writes the `.rfx` format: the signature `"rFX "`, the
    version 120 as a 4-byte unsigned word, then the 96-byte memory image of
    the record;
  - the `.rfx` branch of `LoadWaveParams` checks the signature and version
    before reading the image;
  - the `.sfs` branch reads the legacy sfxr layout of versions 100–102;
- the seven presets (pickup/coin, laser, explosion, power-up, hit/hurt, jump,
  blip/select), `GenRandomize` and `GenMutate` (`Generators.dfy`);
- the control structure of `GenerateWave`, the per-sample synthesis loop
  (`Synthesis.dfy`, with the envelope state machine in `Envelope.dfy`):
  - repeat and arpeggio timers, pitch slide and early stop, vibrato;
  - duty sweep, the three-stage volume envelope, phaser delay and high-pass
    sweep;
  - eight sub-samples per sample, each with an oscillator phase, a 32-entry
    noise table, low-pass and high-pass filters and a 1024-slot phaser ring
    buffer;
  - the output clamp, and the sample count of the resulting wave.

## How the pieces are represented

**The record.** The record is the datatype `WaveParams<F>`, generic in how a
float field is held:

- the generators and the synthesis loop work on `Params` (floats as reals);
- the file codecs work on `ParamsImage` (floats as their 32-bit patterns,
  `Word`), so that a save followed by a load can be exact.

A file is a `seq<Byte>`. Every `fread` fills only the bytes that the file
still has. `Overlay` and `Window` model this, and a truncated file leaves the
remaining fields at the values they held before the read.

**The random source.** raylib's `GetRandomValue` and the C library's `srand`
are outside the model. The source is the value `Random.Rng`, which holds:

- an arbitrary function from a seed and a draw number to a natural number;
- the current seed;
- the number of draws taken so far.

`GetRandomValue(min, max)` yields a value between its bounds in either order,
as raylib swaps them. `frnd(range)` is `k/10000*range` for some `k` in
[0, 10000]. Each generator is a method from a record and a source to a new
record and the advanced source. `srand(seed)` becomes `Reseed`.

**The synthesis loop.** The loop's locals become the fields of
`Synthesis.Synth`:

- the setup before the loop is its constructor;
- each block of the loop body is a method whose frame names exactly the
  fields that block assigns;
- `GenerateWave` allocates the sample buffer and runs the loop.

`sinf` is a parameter of `GenerateWave`. `pow` with an integral exponent is
the exact `Numeric.Pow`, and the C cast `(int)` is `Numeric.Trunc`, which
truncates toward zero.

**Where the code and its own documentation differ, the model follows the code:**

- The comment above the `.rfx` writer (src/rfxgen.old.c:1347-1355) describes a
  2-byte version 200 and a 2-byte data length. The code writes and accepts a
  4-byte version 120 and no length.
- The loop sets `sampleCount` only when it finds the sound over before the
  last of its 441000 iterations. A sound that is still going at the ten-second
  cap gets a sample count of 0, not 441000.
- `GenRandomize` draws its seed from [0, 0xFFFE], so the seed may be 0. It
  does not reseed the generator.
- A truncated `.rfx` or `.sfs` file gives a record whose leading fields come
  from the file and whose remaining fields stay zero.

## Model

| member | source | states |
|---|---|---|
| `Params.ResetWaveParams` | src/rfxgen.old.c:832-877 | the new seed lies in [1, 0xFFFE] and the generator is restarted with it; every other field takes its documented default (square wave, sustain 0.3, decay 0.4, start frequency 0.3, low-pass cutoff 1.0, all else 0), whatever the record held before |
| `Random.GetRandomValue` | src/rfxgen.old.c:835 | the drawn integer lies between the two bounds, in whichever order they are given, and exactly one draw is consumed |
| `Random.Frnd` | src/rfxgen.old.c:105 | `frnd(range)` lies between 0 and `range` (for either sign of `range`) and consumes one draw |
| `Numeric.Trunc` | src/rfxgen.old.c:1048 | the C `(int)` cast: the result is the integer part of the value, truncated toward zero, for both signs |
| `Numeric.Abs` | src/rfxgen.old.c:972 | `abs` returns the value or its negation and is never negative |
| `Numeric.PowUnit` | src/rfxgen.old.c:1653 | an integral power of a value in [-1, 1] stays in [-1, 1], which bounds every `pow(frnd(2)-1, n)` draw |
| `Numeric.PowEven` | src/rfxgen.old.c:1670 | an even power is never negative |
| `Bytes.WordOfWordBytes` | src/rfxgen.old.c:1366 | a 32-bit word written as four little-endian bytes reads back as the same word |
| `Bytes.UnsignedSigned` | src/rfxgen.old.c:1268 | reading back an `int` from its stored bit pattern and storing it again gives the same pattern |
| `Bytes.ChunksFlatten` | src/rfxgen.old.c:1369 | cutting the bytes of a word sequence back into 4-byte words recovers the sequence |
| `Bytes.Overlay` | src/rfxgen.old.c:1274 | a 4-byte `fread` at an offset yields the stored word when the file holds all four bytes, and leaves the previous value when the file ends before the offset |
| `Bytes.Window` | src/rfxgen.old.c:1274 | an `fread` of n bytes at an offset leaves the file's bytes when the file holds all n, leaves the buffer untouched when the file ends before the offset, and otherwise the file's remaining bytes followed by the buffer's own bytes past the end of the file |
| `Bytes.WordAtFlatten` | src/rfxgen.old.c:1208-1244 | a word laid out at index j of a block written after a prefix is read back at offset prefix+4j |
| `ParamsFile.FromWords` | src/rfxgen.old.c:116-161 | every sequence of 24 words is the image of exactly the record it decodes to |
| `ParamsFile.FromImage` | src/rfxgen.old.c:1274 | the record read from 96 bytes has as its words the bytes cut into 4-byte groups |
| `ParamsFile.FromImageImage` | src/rfxgen.old.c:1369 | the 96-byte image of a record decodes back to that record |
| `ParamsFile.ImageZero` | src/rfxgen.old.c:1188 | the all-zero record is 96 zero bytes |
| `ParamsFile.SaveWaveParams` | src/rfxgen.old.c:1343-1373 | only an `.rfx` name is written; the file is 104 bytes: `"rFX "`, the 4-byte version 120, then the record's words |
| `ParamsFile.RfxContents` | src/rfxgen.old.c:1251-1281 | a file of at most 4 bytes loads as the zero record; any non-zero result comes from a file that starts with the signature and version 120 |
| `ParamsFile.RfxRoundTrip` | src/rfxgen.old.c:1357-1369 | loading the `.rfx` file that the save writes returns the saved record field for field |
| `ParamsFile.RfxRejects` | src/rfxgen.old.c:1262-1275 | a wrong signature, version 100, or any version other than 120 loads as the all-zero record; so does any file of at most 8 bytes, which holds no part of the record |
| `ParamsFile.RfxTruncated` | src/rfxgen.old.c:1274 | when a saved file is cut short, every field whose four bytes survive is loaded intact and every field past the cut is zero |
| `ParamsFile.Read` | src/rfxgen.old.c:1259 | a read of n bytes returns the file's n bytes when they all exist, the buffer's previous bytes when the file ends before the cursor, and otherwise the remaining file bytes followed by the buffer's bytes past the end; the cursor advances by n |
| `ParamsFile.ReadWord` | src/rfxgen.old.c:1268 | a 4-byte read at the cursor is `Overlay` of the file there, and the cursor advances by 4 |
| `ParamsFile.LoadRfx` | src/rfxgen.old.c:1251-1281 | the cursor-based `.rfx` reader returns exactly `RfxContents` of the file |
| `ParamsFile.SfsHeadAt` | src/rfxgen.old.c:1197-1229 | in an sfxr file, each word before the filterOn byte sits at offset 4j, as the reader expects |
| `ParamsFile.SfsTailAt` | src/rfxgen.old.c:1231-1245 | each word after the one-byte filterOn flag sits at the filter offset plus 4j |
| `ParamsFile.SfsFileStores` | src/rfxgen.old.c:1197-1245 | an sfxr file of version 100, 101 or 102 holds the version, the wave type, the volume (102 only) and each field at the offset that its version gives it |
| `ParamsFile.SfsContentsStored` | src/rfxgen.old.c:1197-1246 | reading any file that stores a record this way returns the fields that the version carries (delta slide, change speed and change amount only from 101 on; the seed stays 0), with the stored volume at 102 and 0.5 otherwise |
| `ParamsFile.SfsRoundTrip` | src/rfxgen.old.c:1197-1246 | an sfxr file written in that layout, with any vibrato phase delay and any filterOn byte, reads back as the fields of its version and the right volume |
| `ParamsFile.ReadSfsFrequency` | src/rfxgen.old.c:1208-1212 | reads start, minimum and slide, and the delta slide only from version 101 on; the cursor ends at the duty block |
| `ParamsFile.ReadSfsDuty` | src/rfxgen.old.c:1214-1229 | reads duty, sweep and vibrato, skips the 4-byte phase delay, reads the envelope, and skips the 1-byte filterOn; the cursor ends at the filter block |
| `ParamsFile.ReadSfsFilter` | src/rfxgen.old.c:1231-1245 | reads the filter, phaser and repeat fields, and the tone change only from version 101 on |
| `ParamsFile.LoadSfs` | src/rfxgen.old.c:1190-1250 | the cursor-based `.sfs` reader returns exactly `SfsContents`: the zero record and an untouched volume for any version other than 100–102 |
| `ParamsFile.LoadWaveParams` | src/rfxgen.old.c:1186-1284 | an `.sfs` file loads as `SfsContents` and an `.rfx` file as `RfxContents`; any other name, or a file that does not open, loads as the zero record and leaves the volume alone |
| `Generators.GenPickupCoin` | src/rfxgen.old.c:1440-1457 | starts from the defaults under a fresh seed; start frequency in [0.4, 0.9], sustain in [0, 0.1], decay in [0.1, 0.5], punch in [0.3, 0.6]; either no tone change or speed in [0.5, 0.7] and amount in [0.2, 0.6]; nothing else changes |
| `Generators.GenLaserShoot` | src/rfxgen.old.c:1460-1508 | wave type in {0, 1, 2}; one of the two pitch shapes, with the minimum below the start; one of the two duty shapes; attack 0; sustain in [0.1, 0.3]; decay in [0, 0.4]; punch, phaser and high-pass either default or in their ranges |
| `Generators.LaserPitch` | src/rfxgen.old.c:1468-1480 | either start in [0.5, 1], minimum in [0.2, start-0.2] and slide in [-0.35, -0.15], or start in [0.3, 0.9], minimum in [0, 0.1] and slide in [-0.65, -0.35]; no other field changes |
| `Generators.LaserDuty` | src/rfxgen.old.c:1482-1491 | either duty in [0, 0.5] with sweep in [0, 0.2], or duty in [0.4, 0.9] with sweep in [-0.7, 0] |
| `Generators.LaserEnvelope` | src/rfxgen.old.c:1493-1505 | attack 0, sustain and decay in range; punch, phaser pair and high-pass cutoff each either kept or drawn in range |
| `Generators.GenExplosion` | src/rfxgen.old.c:1511-1558 | noise wave; start frequency (a square) in [0.01, 0.81]; slide in [-0.4, 0.3]; repeat off or in [0.3, 0.8]; attack 0; punch in [0.2, 0.8]; vibrato and tone change either default or in range |
| `Generators.ExplosionPitch` | src/rfxgen.old.c:1517-1531 | the squared start frequency lies in [0.01, 0.81]; the slide is in [-0.4, 0.3] in both branches, including when it is zeroed; the repeat speed is kept or drawn in [0.3, 0.8] |
| `Generators.GenPowerup` | src/rfxgen.old.c:1561-1591 | sawtooth with duty 0 or square with duty in [0, 0.6]; start in [0.2, 0.5]; either a repeating slide with no vibrato, or a slower slide with no repeat and drawn vibrato |
| `Generators.GenHitHurt` | src/rfxgen.old.c:1594-1611 | wave type in {0, 1, 3}, with a duty only for square; start in [0.2, 0.8]; slide in [-0.7, -0.3]; attack 0; high-pass in [0, 0.3] |
| `Generators.GenJump` | src/rfxgen.old.c:1614-1630 | square wave with duty in [0, 0.6]; start in [0.3, 0.6]; rising slide in [0.1, 0.3]; attack 0; high-pass cutoff in [0, 0.3]; low-pass cutoff in [0.4, 1] |
| `Generators.GenBlipSelect` | src/rfxgen.old.c:1633-1646 | wave type in {0, 1}, with a duty only for square; start in [0.2, 0.6]; attack 0; high-pass cutoff exactly 0.1 |
| `Generators.SignedPow` | src/rfxgen.old.c:1663 | `pow(frnd(2)-1, n)` lies in [-1, 1] and is non-negative for even n |
| `Generators.PadEnvelope` | src/rfxgen.old.c:1674-1678 | when attack+sustain+decay < 0.2, sustain and decay each grow by an amount in [0.2, 0.5] using two draws; otherwise both are kept and nothing is drawn |
| `Generators.RandomPitch` | src/rfxgen.old.c:1653-1661 | minimum frequency 0; start in [-0.5, 1.5]; slide in [-1, 1], never rising from a high start or falling from a low one |
| `Generators.RandomEnvelope` | src/rfxgen.old.c:1669-1678 | attack in [-1, 1]; sustain in [0, 1.5]; decay in [-1, 1.5]; punch in [0, 0.64] |
| `Generators.RandomFilters` | src/rfxgen.old.c:1680-1687 | low-pass cutoff in [0, 1], never swept down from below 0.1; every other filter field in its drawn range |
| `Generators.GenRandomize` | src/rfxgen.old.c:1649-1695 | seed in [0, 0xFFFE] without reseeding; wave type kept; minimum frequency 0; every float in the range that its draw allows, with the slide and cutoff-sweep sign corrections |
| `Generators.Nudge` | src/rfxgen.old.c:1700 | a field either stays or moves by an amount in [-0.05, 0.05] |
| `Generators.GenMutate` | src/rfxgen.old.c:1698-1725 | seed, wave type and minimum frequency are never changed; each of the other 21 floats stays or moves by at most 0.05 |
| `Envelope.Step` | src/rfxgen.old.c:1058-1066 | the stage advances by at most one, exactly when the incremented time exceeds the stage's length, and then the time restarts at 0; otherwise the time grows by one and stays within the length |
| `Envelope.At` | src/rfxgen.old.c:1058-1066 | after n samples the envelope is at stage 3 exactly when n is the total duration; before that, the time stays within its stage's length |
| `Envelope.AtStep` | src/rfxgen.old.c:1058-1066 | one more sample takes the position after n samples to the position after n+1 samples by one `Step` |
| `Envelope.RunAt` | src/rfxgen.old.c:1058-1066 | applying `Step` n times from the start gives the closed-form position after n samples |
| `Envelope.StageMonotone` | src/rfxgen.old.c:1058-1066 | the envelope stage never decreases |
| `Envelope.Fraction` | src/rfxgen.old.c:1068-1070 | elapsed time over stage length lies in [0, 1] while the time is within the stage |
| `Envelope.Volume` | src/rfxgen.old.c:1068-1070 | attack and decay volumes lie in [0, 1]; the sustain volume lies in [1, 1 + 2·punch] |
| `Envelope.VolumeAsWritten` | src/rfxgen.old.c:1068-1070 | within the three stages, the volume as the source computes it is NaN exactly at a stage of zero length and equals `Volume` otherwise; past the decay no formula applies, so the previous volume, NaN included, is kept |
| `Envelope.VolumeNaNExactly` | src/rfxgen.old.c:1058-1070 | the volume after tick k is NaN exactly on the tick that enters a zero-length sustain, and, for a zero-length decay, on the tick that enters it and on the final tick, which keeps it |
| `Envelope.NaNCountTotal` | src/rfxgen.old.c:1058-1070 | over the whole sound the number of NaN volumes is one for a zero-length sustain plus two for a zero-length decay: two for an empty decay alone, three when both are empty, none when neither is |
| `Envelope.ZeroStageReached` | src/rfxgen.old.c:1058-1070 | a zero-length sustain or decay stage is entered at a tick before the sound ends, and the volume computed on that tick is NaN as written; after a zero-length decay the next tick is the last one, and its volume is still NaN |
| `Envelope.DecayFalls` | src/rfxgen.old.c:1070 | the decay volume never rises as time goes on |
| `Synthesis.Correct` | src/rfxgen.old.c:928-930 | after the correction min ≤ start and deltaSlide ≤ slide; only those two fields may change, and a record already in order is unchanged |
| `Synthesis.Clamp` | src/rfxgen.old.c:1054-1055 | the clamped value lies in the bounds and equals the input when the input is already within them |
| `Synthesis.PeriodOf` | src/rfxgen.old.c:934 | the period derived from a frequency is positive |
| `Synthesis.PeriodFalls` | src/rfxgen.old.c:934-936 | a higher non-negative frequency never gives a longer period |
| `Synthesis.StartWithinCap` | src/rfxgen.old.c:929-936 | when the corrected minimum frequency is non-negative, the starting period never exceeds the maximum period |
| `Synthesis.ClampPeriod` | src/rfxgen.old.c:1048-1050 | the period is at least 8, so `phase %= period` never divides by zero, and equals the truncated period when that is already ≥ 8 |
| `Synthesis.ArpeggioModulation` | src/rfxgen.old.c:942-943 | a non-negative change amount up to 1 lowers the period by a factor in [0.1, 1]; a negative one raises it |
| `Synthesis.CycleLimit` | src/rfxgen.old.c:945 | the timer limit computed from a speed is at least 32 |
| `Synthesis.ArpeggioLimit` | src/rfxgen.old.c:945-947 | the arpeggio limit is 0 exactly when the change speed is 1, and at least 32 otherwise |
| `Synthesis.RepeatLimit` | src/rfxgen.old.c:976-978 | the repeat limit is 0 exactly when the repeat speed is 0, and at least 32 otherwise |
| `Synthesis.ShortStageIsEmpty` | src/rfxgen.old.c:962-964 | a stage time within 0.003 of zero gives a stage of zero samples |
| `Synthesis.EnvelopeLengths` | src/rfxgen.old.c:962-964 | the three stage lengths are non-negative sample counts |
| `Synthesis.DampingOf` | src/rfxgen.old.c:952-953 | the low-pass damping never exceeds 0.8 |
| `Synthesis.PhaserDelay` | src/rfxgen.old.c:1074-1076 | the phaser delay lies in [0, 1023] |
| `Synthesis.Low10` | src/rfxgen.old.c:1149-1151 | a ring-buffer slot lies in [0, 1023] |
| `Synthesis.ReadSlot` | src/rfxgen.old.c:1150 | the read slot lies in [0, 1023] and is exactly `iphase` slots behind the write slot, modulo 1024 |
| `Synthesis.NoiseIndex` | src/rfxgen.old.c:1119 | `phase*32/period` lies in [0, 31] whenever 0 ≤ phase < period |
| `Synthesis.Advance` | src/rfxgen.old.c:1093-1098 | for any non-negative phase, the phase after the increment and wrap lies in [0, period) |
| `Synthesis.Waveform` | src/rfxgen.old.c:1106-1121 | square, sawtooth and noise samples lie in [-1, 1] while the noise table does |
| `Synthesis.Synth.constructor` | src/rfxgen.old.c:889-979 | the setup: corrected parameters, the initial pitch state, envelope at the start of stage 0, filters and phaser from the parameters, `iphase = abs((int)fphase)`, a zeroed phaser buffer, a noise table in [-1, 1], and the generator reseeded when the seed is non-zero and then advanced by 32 draws |
| `Synthesis.Synth.RefreshNoise` | src/rfxgen.old.c:974 | the noise table is refilled with 32 values in [-1, 1] using 32 draws |
| `Synthesis.Synth.ResetSample` | src/rfxgen.old.c:1001-1018 | the pitch state (period, slide, duty and arpeggio) returns to its initial value |
| `Synthesis.Synth.RepeatStep` | src/rfxgen.old.c:997-1019 | the repeat timer counts up; when the limit is non-zero and reached, it restarts at 0 and only the pitch state is reinitialised, and the envelope, filters, phaser and noise table are untouched |
| `Synthesis.Synth.ArpeggioStep` | src/rfxgen.old.c:1022-1028 | the arpeggio timer counts up; at a non-zero limit the period is scaled once and the limit is cleared |
| `Synthesis.Synth.SlideStep` | src/rfxgen.old.c:1030-1038 | the slide accumulates the delta; the period never exceeds the maximum, and hitting it stops generation when the minimum frequency is positive |
| `Synthesis.Synth.VibratoStep` | src/rfxgen.old.c:1040-1050 | the vibrato phase advances only with a positive amplitude; the integer period is at least 8 |
| `Synthesis.Synth.DutyStep` | src/rfxgen.old.c:1052-1055 | the square duty after its sweep lies in [0, 0.5] |
| `Synthesis.Synth.EnvelopeStep` | src/rfxgen.old.c:1057-1070 | the envelope moves by one `Envelope.Step`, generation stops on reaching stage 3, and the volume follows the stage formula |
| `Synthesis.Synth.PhaserStep` | src/rfxgen.old.c:1072-1076 | the phaser offset advances by its sweep and `iphase` lies in [0, 1023] |
| `Synthesis.Synth.HighPassStep` | src/rfxgen.old.c:1078-1083 | with a non-zero sweep the high-pass cutoff lies in [0.00001, 0.1]; with a zero sweep it is untouched |
| `Synthesis.Synth.Oscillate` | src/rfxgen.old.c:1092-1121 | the phase wraps into [0, period); the noise table is redrawn (32 draws) only on a wrap of a noise wave; the sample is the waveform at the new phase, in [-1, 1] unless the wave is a sine |
| `Synthesis.Synth.Filter` | src/rfxgen.old.c:1123-1146 | the low-pass cutoff stays in [0, 0.1]; the low-pass filter is bypassed exactly when the cutoff setting is 1; the high-pass filter follows the low-pass output's change |
| `Synthesis.Synth.Phase` | src/rfxgen.old.c:1148-1151 | the sample is stored at slot `ipp & 1023` and nowhere else, the delayed sample is added from the read slot (`Echo`: the written slot plus the slot `iphase` behind it), and `ipp` moves to the next slot in [0, 1023] |
| `Synthesis.SlotsApart` | src/rfxgen.old.c:1148-1151 | within one output sample, the slot a later sub-sample writes is neither the slot an earlier one wrote nor, for a delay of at most 1016, the slot it read |
| `Synthesis.Synth.SubSample` | src/rfxgen.old.c:1090-1155 | one sub-sample keeps the loop invariant, leaves the phase below the period and the cutoff in [0, 0.1], and only takes draws from the same generator; it writes only slot `ipp`, advances `ipp` by one modulo 1024, and contributes the phaser's mix of that slot and the slot `iphase` behind it, times the envelope volume |
| `Synthesis.Synth.Accumulate` | src/rfxgen.old.c:1090-1155 | one pass of the sub-sample loop adds the next contribution to the running sum, and every contribution so far stays readable from the ring (for a delay of at most 1016) |
| `Synthesis.Synth.PitchStep` | src/rfxgen.old.c:997-1055 | the pitch part of a sample leaves a period ≥ 8 and a duty in [0, 0.5], and never restarts a stopped sound |
| `Synthesis.Synth.Control` | src/rfxgen.old.c:997-1083 | the per-sample control keeps the loop invariant, takes one envelope step, and restores the period, `iphase` and high-pass bounds |
| `Synthesis.Synth.Mix` | src/rfxgen.old.c:1085-1164 | the sample is the sum of eight contributions, divided by 8, scaled by 0.2 and clamped to [-1, 1]; contribution j is the phaser's mix at slot `ipp + j` of the ring and the slot `iphase` behind it, times the envelope volume (for a delay of at most 1016); `ipp` ends eight slots on |
| `Synthesis.Synth.NextSample` | src/rfxgen.old.c:995-1164 | one iteration of the loop: a sample in [-1, 1], one envelope step, and every per-sample clamp afterwards |
| `Synthesis.GenerateWave` | src/rfxgen.old.c:881-1183 | a mono wave of 32-bit samples at 44100 Hz with every sample in [-1, 1] (with the corrected envelope volume, see Findings); fewer than 441000 samples, never more than the envelope's duration; with no pitch stop, exactly the duration, or 0 when that reaches the ten-second cap |

## Left out

- The GUI, the command line, the file dialogs, audio playback, console
  messages (`printf`) and the `regenerate` flag are presentation and I/O.
- File-system access is outside the model:
  - opening and closing a file: a file that does not open is `None`;
  - choosing a branch by file extension: the caller passes a `FileKind`.
- `LoadWaveParams`: the uninitialised `.rfx` signature and version buffers
  are taken to hold zeros when the file is shorter than they are.
- Floating point is modelled as reals:
  - no single/double rounding;
  - no infinities, and no NaN from a zero-length envelope stage: the
    fraction of a zero-length stage is taken as 0 (see Findings);
  - no undefined behaviour in float-to-`int` casts;
  - a float field in a file is kept as its bit pattern, and its value is not
    decoded.
- `sinf` is an arbitrary function given as a parameter. `pow` appears only
  with integral exponents and is exact.
- The real pseudo-random generator (`srand` and raylib's `GetRandomValue`) is
  an arbitrary function of the seed and the draw number. Only bounds are
  proved about the values drawn, not which values appear.
- `& 1023` on the phaser indices is written as `% 1024`. The two agree on the
  non-negative operands that occur.
- `calloc`, `memcpy` and `free` of the wave buffer are left out. The wave's
  data is the sequence of stored samples.
- The `.sfs` writer in `SaveWaveParams` is commented out in the source, so the
  save models only the `.rfx` branch. The sfxr layout appears only as the
  file that the reader round-trips with (`SfsFile`).
- Synthesis.GenerateWave: when the minimum frequency is positive, the sample
  count is bounded by the envelope's duration but not pinned exactly. The pitch
  stop depends on the real-valued period, which the model does not compute in
  closed form.
- Synthesis.GenerateWave: its bound of [-1, 1] on every sample holds for the
  model, whose envelope volume takes 0/0 as 0. In the source, a zero-length
  sustain or decay stage makes the volume NaN on the tick that enters it. That
  NaN passes both output clamps and is stored. After a zero-length decay the
  next tick ends the sound and keeps the NaN volume, and that sample is stored
  and counted too. So an empty decay stores two NaN samples, an empty sustain
  one, and both together three (`Envelope.NaNCountTotal`). The presets
  reach this case: pickup/coin and hit/hurt draw the sustain time from
  [0, 0.1], and blip/select draws the decay time from [0, 0.2], and any time
  within 0.003 of zero gives a stage of zero samples.
- Synthesis.StartWithinCap: for a negative corrected minimum frequency the
  starting period can exceed the maximum period. The first slide step then
  clamps the period to the maximum, as `Synthesis.Synth.SlideStep` states.
- Synthesis.Synth.Mix: for a phaser delay above 1016, a later sub-sample may
  overwrite the slot that an earlier one read. The sample is then still
  in [-1, 1], but its contributions are not stated in terms of the ring as it
  ends.
- Synthesis.Synth.Oscillate: the sine wave's sample is not bounded, because
  `sinf` is a parameter about which nothing is assumed.
- Synthesis.Synth.constructor: the initial `iphase` is not clamped to 1023.
  The source does not clamp it either, and the first per-sample phaser step
  clamps it before any use.
- Generators.GenRandomize, Generators.GenMutate: the new values are stated by
  range, not as exact functions of the draws.

## Findings

| source | as written | input that shows it | evidently intended | confidence | as-written member | corrected member |
|---|---|---|---|---|---|---|
| src/rfxgen.old.c:1069-1070 | the sustain and decay volumes divide the stage time by the stage length, which gives 0/0 (NaN) on the tick that enters a zero-length stage; the NaN passes the clamps at lines 1163-1164 and is stored, and after an empty decay the final tick keeps the NaN volume, so two NaN samples are stored (three when the sustain is empty as well) | a decay time of 0 (blip/select draws it from [0, 0.2]), so the decay stage has length 0 and is entered at time 0 | every stored sample lies in [-1, 1], as the output clamp intends; a zero-length stage takes the fraction 0, so the volume is 1 + 2·punch in sustain and 1 in decay | medium, not executed | `Envelope.ZeroStageReached` | `Envelope.Volume` |
