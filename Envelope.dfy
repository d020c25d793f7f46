/**
 * The volume envelope of the synthesis loop: three stages (attack, sustain,
 * decay) of `lengths[stage]` samples each. Every output sample advances the
 * stage clock by one; a stage ends on the first tick past its length, and the
 * end of the third stage ends the sound.
 */
module Envelope {
  import opened Wrappers

  /** Where the envelope is: the stage (3 once the sound is over) and the ticks spent in it. */
  datatype Position = Position(stage: nat, time: nat)

  predicate ValidLengths(lengths: seq<nat>)
  {
    |lengths| == 3
  }

  /** One tick: the time advances, and a time past the stage's length starts the next stage at time 0. */
  function Step(lengths: seq<nat>, e: Position): (r: Position)
    requires ValidLengths(lengths) && e.stage < 3
    ensures e.stage <= r.stage <= e.stage + 1
    ensures r.stage == e.stage + 1 <==> e.time + 1 > lengths[e.stage]
    ensures r.stage == e.stage + 1 ==> r.time == 0
    ensures r.stage == e.stage ==> r.time == e.time + 1 && r.time <= lengths[r.stage]
  {
    var time := e.time + 1;
    if time > lengths[e.stage] then Position(e.stage + 1, 0) else Position(e.stage, time)
  }

  /** The number of ticks from the start to the end of the sound: each stage lasts one tick more than its length. */
  function Duration(lengths: seq<nat>): nat
    requires ValidLengths(lengths)
  {
    lengths[0] + lengths[1] + lengths[2] + 3
  }

  /** The position after `n` ticks, in closed form. */
  function At(lengths: seq<nat>, n: nat): (e: Position)
    requires ValidLengths(lengths) && n <= Duration(lengths)
    ensures e.stage <= 3
    ensures e.stage == 3 <==> n == Duration(lengths)
    ensures e.stage < 3 ==> e.time <= lengths[e.stage]
  {
    var a, s := lengths[0], lengths[1];
    if n <= a then Position(0, n)
    else if n <= a + 1 + s then Position(1, n - a - 1)
    else if n < Duration(lengths) then Position(2, n - a - s - 2)
    else Position(3, 0)
  }

  /** The position after `n` ticks, by stepping from the start. */
  function Run(lengths: seq<nat>, n: nat): Position
    requires ValidLengths(lengths) && n <= Duration(lengths)
  {
    if n == 0 then Position(0, 0)
    else
      var e := Run(lengths, n - 1);
      if e.stage < 3 then Step(lengths, e) else e
  }

  /** One tick from the closed form is the closed form one tick later. */
  lemma AtStep(lengths: seq<nat>, n: nat)
    requires ValidLengths(lengths) && n < Duration(lengths)
    ensures At(lengths, n).stage < 3 && Step(lengths, At(lengths, n)) == At(lengths, n + 1)
  {
  }

  /** Stepping from the start agrees with the closed form. */
  lemma {:induction false} RunAt(lengths: seq<nat>, n: nat)
    requires ValidLengths(lengths) && n <= Duration(lengths)
    ensures Run(lengths, n) == At(lengths, n)
  {
    if n > 0 {
      RunAt(lengths, n - 1);
      AtStep(lengths, n - 1);
    }
  }

  /** The stage never goes back. */
  lemma StageMonotone(lengths: seq<nat>, m: nat, n: nat)
    requires ValidLengths(lengths) && m <= n <= Duration(lengths)
    ensures At(lengths, m).stage <= At(lengths, n).stage
  {
  }

  /**
   * `time / length` as the volume formulas compute it. A zero length is met
   * only at time 0, right after the stage starts (0/0 in the tool, NaN);
   * the model takes 0 there.
   */
  function Fraction(time: nat, length: nat): (f: real)
    ensures time <= length ==> 0.0 <= f <= 1.0
  {
    if length == 0 then 0.0 else time as real / length as real
  }

  /**
   * The envelope volume at a position: rising during attack, `punch` above
   * full and falling back during sustain, falling to silence during decay.
   * Past the decay the volume is not recomputed: `previous` stays.
   */
  function Volume(lengths: seq<nat>, e: Position, punch: real, previous: real): (v: real)
    requires ValidLengths(lengths)
    ensures e.stage < 3 && e.time <= lengths[e.stage] && e.stage != 1 ==> 0.0 <= v <= 1.0
    ensures e.stage == 1 && e.time <= lengths[1] && 0.0 <= punch ==> 1.0 <= v <= 1.0 + 2.0 * punch
  {
    match e.stage
    case 0 => Fraction(e.time, lengths[0])
    case 1 =>
      var f := Fraction(e.time, lengths[1]);
      assert e.time <= lengths[1] && 0.0 <= punch ==> 0.0 <= (1.0 - f) * 2.0 * punch <= 2.0 * punch by {
        if e.time <= lengths[1] && 0.0 <= punch {
          ScaleUnit(1.0 - f, 2.0 * punch);
          assert (1.0 - f) * 2.0 * punch == (1.0 - f) * (2.0 * punch);
        }
      }
      1.0 + (1.0 - f) * 2.0 * punch
    case 2 => 1.0 - Fraction(e.time, lengths[2])
    case _ => previous
  }

  /**
   * The volume as the tool computes it in single precision, where `None`
   * stands for the NaN that `0.0f/0` gives: any stage of zero length yields
   * NaN at its only tick, time 0. Past the decay the volume is not
   * recomputed, so a NaN held in `previous` stays.
   */
  function VolumeAsWritten(lengths: seq<nat>, e: Position, punch: real, previous: Option<real>): (v: Option<real>)
    requires ValidLengths(lengths)
    ensures e.stage < 3 ==> (v.None? <==> lengths[e.stage] == 0)
    ensures 3 <= e.stage ==> v == previous
    ensures e.stage < 3 && v.Some? ==> v.value == Volume(lengths, e, punch, 0.0)
  {
    if e.stage < 3 && lengths[e.stage] == 0 then None
    else if e.stage < 3 then Some(Volume(lengths, e, punch, 0.0))
    else previous
  }

  /** The volume as written after `n` ticks: 0 before the first, then recomputed (or kept) at every tick. */
  function VolumeAfter(lengths: seq<nat>, punch: real, n: nat): Option<real>
    requires ValidLengths(lengths) && n <= Duration(lengths)
  {
    if n == 0 then Some(0.0)
    else VolumeAsWritten(lengths, At(lengths, n), punch, VolumeAfter(lengths, punch, n - 1))
  }

  /**
   * The ticks whose volume is NaN as written: the tick that enters a
   * zero-length sustain, and, after a zero-length decay, the tick that
   * enters it and the final tick, which keeps its volume.
   */
  predicate NaNTick(lengths: seq<nat>, k: nat)
    requires ValidLengths(lengths)
  {
    || (lengths[1] == 0 && k == lengths[0] + 1)
    || (lengths[2] == 0 && (k == lengths[0] + lengths[1] + 2 || k == Duration(lengths)))
  }

  /** The volume as written at tick `k` is NaN exactly at the ticks `NaNTick` names. */
  lemma VolumeNaNExactly(lengths: seq<nat>, punch: real, k: nat)
    requires ValidLengths(lengths) && 1 <= k <= Duration(lengths)
    ensures VolumeAfter(lengths, punch, k).None? <==> NaNTick(lengths, k)
  {
    if k == Duration(lengths) {
      assert At(lengths, k - 1) == Position(2, lengths[2]);
    }
  }

  /** The number of ticks among the first `n` whose volume is NaN as written. */
  function NaNCount(lengths: seq<nat>, punch: real, n: nat): nat
    requires ValidLengths(lengths) && n <= Duration(lengths)
  {
    if n == 0 then 0
    else NaNCount(lengths, punch, n - 1) + (if VolumeAfter(lengths, punch, n).None? then 1 else 0)
  }

  /**
   * Over the whole sound, a zero-length sustain gives one NaN volume and a
   * zero-length decay two (the tick entering it and the final tick): three
   * when both stages are empty, and none when neither is.
   */
  lemma {:induction false} NaNCountTotal(lengths: seq<nat>, punch: real, n: nat)
    requires ValidLengths(lengths) && n <= Duration(lengths)
    ensures NaNCount(lengths, punch, n)
      == (if lengths[1] == 0 && lengths[0] + 1 <= n then 1 else 0)
       + (if lengths[2] == 0 && lengths[0] + lengths[1] + 2 <= n then 1 else 0)
       + (if lengths[2] == 0 && Duration(lengths) <= n then 1 else 0)
    ensures n == Duration(lengths) ==>
      NaNCount(lengths, punch, n) == (if lengths[1] == 0 then 1 else 0) + (if lengths[2] == 0 then 2 else 0)
  {
    if n > 0 {
      NaNCountTotal(lengths, punch, n - 1);
      VolumeNaNExactly(lengths, punch, n);
    }
  }

  /**
   * A zero-length sustain or decay stage is entered while the sound is still
   * going, and the tick that enters it computes a NaN volume as written; a
   * zero-length decay also leaves the NaN in place for the final tick.
   */
  lemma ZeroStageReached(lengths: seq<nat>, stage: nat, punch: real)
    requires ValidLengths(lengths) && (stage == 1 || stage == 2) && lengths[stage] == 0
    ensures var n := if stage == 1 then lengths[0] + 1 else lengths[0] + lengths[1] + 2;
      && n < Duration(lengths)
      && At(lengths, n) == Position(stage, 0)
      && VolumeAfter(lengths, punch, n).None?
      && (stage == 2 ==> n + 1 == Duration(lengths) && VolumeAfter(lengths, punch, n + 1).None?)
  {
    if stage == 2 {
      VolumeNaNExactly(lengths, punch, lengths[0] + lengths[1] + 3);
    }
  }

  lemma ScaleUnit(u: real, c: real)
    requires 0.0 <= u <= 1.0 && 0.0 <= c
    ensures 0.0 <= u * c <= c
  {
    assert u * c <= 1.0 * c;
  }

  /** During the decay the volume only falls. */
  lemma DecayFalls(lengths: seq<nat>, s: nat, t: nat, punch: real, previous: real)
    requires ValidLengths(lengths) && s <= t <= lengths[2]
    ensures Volume(lengths, Position(2, t), punch, previous) <= Volume(lengths, Position(2, s), punch, previous)
  {
    if lengths[2] > 0 {
      DivMonotone(s as real, t as real, lengths[2] as real);
    }
  }

  lemma DivMonotone(s: real, t: real, l: real)
    requires 0.0 < l && s <= t
    ensures s / l <= t / l
  {
    var a, b := s / l, t / l;
    assert a * l == s && b * l == t;
  }
}
