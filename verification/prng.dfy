/**
 * The pseudo-random source, treated as an oracle.
 *
 * A generator (mt19937_64 and friends) together with a std::uniform_int_distribution
 * over [lo, hi] is abstracted as one function `draw(seed, k, lo, hi)`: the value the
 * k-th uniform draw after seeding with `seed` yields. The only thing the model relies on
 * is the distribution's bound contract, stated by `Honest`.
 */
module Prng {

  const U64_MODULUS: int := 0x1_0000_0000_0000_0000
  const U64_MAX: int := U64_MODULUS - 1

  /** uint_fast64_t on the platforms the generator targets. */
  type u64 = x: int | 0 <= x < U64_MODULUS

  /** Unsigned 64-bit addition and subtraction, with wrap-around. */
  function Add64(a: u64, b: u64): u64 { (a + b) % U64_MODULUS }
  function Sub64(a: u64, b: u64): u64 { (a - b) % U64_MODULUS }

  type DrawOracle = (u64, nat, u64, u64) -> u64

  /** A uniform draw over a well-formed range [lo, hi] lands in that range.
      Over an empty range (lo > hi) the C++ distribution is undefined: nothing is promised. */
  ghost predicate Honest(draw: DrawOracle) {
    forall seed: u64, k: nat, lo: u64, hi: u64 :: lo <= hi ==> lo <= draw(seed, k, lo, hi) <= hi
  }

  /** A seeded generator that the distributions draw from by reference. */
  class PrngEngine {
    const draw: DrawOracle
    var seed: u64
    var drawn: nat

    constructor (draw: DrawOracle, seed: u64)
      ensures this.draw == draw && this.seed == seed && drawn == 0
    {
      this.draw := draw;
      this.seed := seed;
      drawn := 0;
    }

    /** Re-seeding restarts the stream. */
    method Seed(s: u64)
      modifies this
      ensures seed == s && drawn == 0
    {
      seed := s;
      drawn := 0;
    }

    /** One draw of a uniform integer distribution over [lo, hi] from this generator. */
    method UniformInt(lo: u64, hi: u64) returns (r: u64)
      modifies this
      ensures r == draw(old(seed), old(drawn), lo, hi)
      ensures seed == old(seed) && drawn == old(drawn) + 1
      ensures Honest(draw) && lo <= hi ==> lo <= r <= hi
    {
      r := draw(seed, drawn, lo, hi);
      drawn := drawn + 1;
    }
  }
}
