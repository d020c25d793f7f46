/**
 * The pseudo-random source. The tool draws from the C library generator
 * through raylib's `GetRandomValue`, and `srand(seed)` restarts that
 * generator. The model keeps the generator explicit and abstract:
 * `rand(seed, k)` is the k-th value `rand()` returns after `srand(seed)`, for
 * a generator function the C library fixes, and `drawn` counts the values
 * taken since the last `srand`.
 */
module Random {
  datatype Rng = Rng(rand: (int, nat) -> nat, seed: int, drawn: nat)

  /** `srand(seed)`: the sequence restarts from the seed. */
  function Reseed(rng: Rng, seed: int): Rng
  {
    Rng(rng.rand, seed, 0)
  }

  /** The generator after one more value has been taken. */
  function Advanced(rng: Rng): Rng
  {
    rng.(drawn := rng.drawn + 1)
  }

  /** The generator after `n` more values have been taken. */
  function AdvancedBy(rng: Rng, n: nat): Rng
  {
    rng.(drawn := rng.drawn + n)
  }

  /**
   * raylib's `GetRandomValue(min, max)`: the next `rand()` value reduced into
   * the closed range, the bounds swapped first when given in the wrong order.
   */
  method GetRandomValue(rng: Rng, min: int, max: int) returns (v: int, next: Rng)
    ensures min <= max ==> min <= v <= max
    ensures max < min ==> max <= v <= min
    ensures next == Advanced(rng)
  {
    var lo, hi := min, max;
    if lo > hi {
      lo, hi := max, min;
    }
    v := rng.rand(rng.seed, rng.drawn) % (hi - lo + 1) + lo;
    next := Advanced(rng);
  }

  /**
   * `frnd(range)` (also `GetRandomFloat(range)`): `GetRandomValue(0, 10000)`
   * divided by 10000 and scaled by `range`, so a value between 0 and `range`.
   */
  method Frnd(rng: Rng, range: real) returns (v: real, next: Rng)
    ensures 0.0 <= range ==> 0.0 <= v <= range
    ensures range <= 0.0 ==> range <= v <= 0.0
    ensures next == Advanced(rng)
  {
    var k;
    k, next := GetRandomValue(rng, 0, 10000);
    var unit := k as real / 10000.0;
    v := unit * range;
    Scaled(unit, range);
  }

  lemma Scaled(unit: real, range: real)
    requires 0.0 <= unit <= 1.0
    ensures 0.0 <= range ==> 0.0 <= unit * range <= range
    ensures range <= 0.0 ==> range <= unit * range <= 0.0
  {
    if 0.0 <= range {
      MulNonNegative(unit, range);
      MulNonNegative(1.0 - unit, range);
    } else {
      MulNonNegative(unit, -range);
      MulNonNegative(1.0 - unit, -range);
    }
  }

  lemma MulNonNegative(a: real, b: real)
    requires 0.0 <= a && 0.0 <= b
    ensures 0.0 <= a * b
  {
  }
}
