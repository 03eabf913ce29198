/** The 32-bit linear-congruential pseudo-random generator of game.c (Random).
    The process-wide seed of the source is passed in and returned explicitly. */
module Lcg {

  const MODULUS: int := 0x1_0000_0000

  /** An unsigned 32-bit value (ULONG). */
  type U32 = x: int | 0 <= x < 0x1_0000_0000

  /** The seed the program starts with. */
  const INITIAL_SEED: U32 := 12345

  const MULTIPLIER: int := 1103515245
  const INCREMENT: int := 12345

  /** The inverse of MULTIPLIER modulo 2^32 (MULTIPLIER is odd, so it has one). */
  const MULTIPLIER_INVERSE: int := 4005161829

  /** seed * 1103515245 + 12345 in unsigned 32-bit arithmetic, which wraps modulo 2^32. */
  function NextSeed(seed: U32): (s: U32)
  {
    (seed * MULTIPLIER + INCREMENT) % MODULUS
  }

  /** The seed that NextSeed maps onto the given one. */
  function PrevSeed(seed: U32): (s: U32)
  {
    ((seed - INCREMENT) * MULTIPLIER_INVERSE) % MODULUS
  }

  /** One draw: the value returned and the seed left behind. */
  datatype Draw = Draw(value: int, seed: U32)

  /** Random(max): 0 without touching the seed when max <= 0; otherwise it advances
      the seed once and returns bits 16 and up of the new seed, reduced modulo max. */
  function Random(seed: U32, max: int): (d: Draw)
    ensures max <= 0 ==> d.value == 0 && d.seed == seed
    ensures max > 0 ==> 0 <= d.value < max
    ensures max > 0 ==> d.seed == NextSeed(seed)
    ensures max > 0 ==> d.value == (d.seed / 0x10000) % max
  {
    if max <= 0 then Draw(0, seed)
    else
      var s := NextSeed(seed);
      Draw((s / 0x10000) % max, s)
  }

  /** Adding a multiple of the modulus does not change a reduced value. */
  lemma ModAddMultiple(x: int, t: int)
    requires 0 <= x < MODULUS
    ensures (x + t * MODULUS) % MODULUS == x
  {
    var v := x + t * MODULUS;
    var q := v / MODULUS;
    var r := v % MODULUS;
    assert v == q * MODULUS + r;
    assert (t - q) * MODULUS == r - x;
  }

  /** The seed update is invertible: PrevSeed recovers the seed NextSeed started from. */
  lemma PrevAfterNext(seed: U32)
    ensures PrevSeed(NextSeed(seed)) == seed
  {
    var n := seed * MULTIPLIER + INCREMENT;
    var k := n / MODULUS;
    assert NextSeed(seed) == n - k * MODULUS;
    assert NextSeed(seed) - INCREMENT == seed * MULTIPLIER - k * MODULUS;
    assert MULTIPLIER * MULTIPLIER_INVERSE == 1 + 1029054899 * MODULUS;
    var t := seed * 1029054899 - k * MULTIPLIER_INVERSE;
    calc {
      (NextSeed(seed) - INCREMENT) * MULTIPLIER_INVERSE;
      (seed * MULTIPLIER - k * MODULUS) * MULTIPLIER_INVERSE;
      seed * (MULTIPLIER * MULTIPLIER_INVERSE) - k * MULTIPLIER_INVERSE * MODULUS;
      seed * (1 + 1029054899 * MODULUS) - k * MULTIPLIER_INVERSE * MODULUS;
      seed + t * MODULUS;
    }
    ModAddMultiple(seed, t);
  }

  /** Hence two different seeds never advance to the same seed. */
  lemma NextSeedInjective(a: U32, b: U32)
    requires NextSeed(a) == NextSeed(b)
    ensures a == b
  {
    PrevAfterNext(a);
    PrevAfterNext(b);
  }
}
