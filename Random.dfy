/**
 * The 48-bit linear congruential generator behind the network's weight initialisation: the
 * generator of `java.util.Random`, written over 64-bit signed integers.
 *
 * Every int64 is modelled by its two's-complement bits as a `bv64`, so the bitwise operators are
 * exact and the product `seed * multiplier` wraps modulo 2^64, as WebAssembly's `i64.mul` does.
 * The generator's state is the low 48 bits of the seed.
 */
module Random {

  const Multiplier: bv64 := 0x5_DEEC_E66D
  const Addend: bv64 := 0xB
  /** 2^48 - 1: the state is the seed's low 48 bits. */
  const Mask: bv64 := 0xFFFF_FFFF_FFFF
  /** 2^53, the denominator of `nextDouble`. */
  const Denominator: bv64 := 0x20_0000_0000_0000

  /** A state the generator can be in: no bit above bit 47 is set. */
  predicate InRange(seed: bv64) {
    seed <= Mask
  }

  /** `initSeed`: scramble the caller's seed with the multiplier and keep 48 bits. */
  function InitialSeed(seed: bv64): (r: bv64)
    ensures InRange(r)
  {
    (seed ^ Multiplier) & Mask
  }

  /** The state is the caller's low 48 bits, scrambled. */
  lemma InitialSeedLow(seed: bv64)
    ensures InitialSeed(seed) == (seed & Mask) ^ Multiplier
  {
  }

  /** The caller's seed can be read back from the state up to its low 48 bits. */
  lemma InitialSeedInverse(seed: bv64)
    ensures InitialSeed(seed) ^ Multiplier == seed & Mask
  {
  }

  /** Two seeds give the same state exactly when they agree on their low 48 bits. */
  lemma InitialSeedInjective(s: bv64, t: bv64)
    ensures InitialSeed(s) == InitialSeed(t) <==> s & Mask == t & Mask
  {
    if InitialSeed(s) == InitialSeed(t) {
      InitialSeedInverse(s);
      InitialSeedInverse(t);
    }
    if s & Mask == t & Mask {
      InitialSeedLow(s);
      InitialSeedLow(t);
    }
  }

  /** One step of the recurrence `seed * 0x5DEECE66D + 0xB mod 2^48`. */
  function NextSeed(seed: bv64): (r: bv64)
    ensures InRange(r)
  {
    (seed * Multiplier + Addend) & Mask
  }

  /**
   * `nextBits`' return expression, with its sign test, its mask and the conversion to int32
   * (the low 32 bits). `>>` here is a logical shift; C's arithmetic shift of an int64 agrees with
   * it on every state, since a state never has its top bit set. For the widths `nextDouble` asks
   * for (any width from 16 to 31), the mask only touches bits the int32 conversion drops: the
   * result is the top `bits` bits of the 48-bit state, a non-negative int32 below 2^bits.
   */
  function ExtractBits(nextSeed: bv64, bits: bv32): (r: bv32)
    requires bits <= 47
    ensures InRange(nextSeed) && 16 <= bits <= 31 ==> r as bv64 == nextSeed >> (48 - bits) && r < 1 << bits
  {
    var sign: bv64 := if nextSeed < 0x8000_0000_0000_0000 then 1 else 0;
    var arithmeticMask: bv64 := !((sign << (16 + bits)) - 1);
    ((arithmeticMask | (nextSeed >> (48 - bits))) & 0xFFFF_FFFF) as bv32
  }

  /** The first draw of `nextDouble`: the top 26 bits of the state. */
  lemma FirstDraw(state: bv64)
    requires InRange(state)
    ensures ExtractBits(state, 26) as bv64 == state >> 22 && ExtractBits(state, 26) < 1 << 26
  {
  }

  /** The second draw of `nextDouble`: the top 27 bits of the state. */
  lemma SecondDraw(state: bv64)
    requires InRange(state)
    ensures ExtractBits(state, 27) as bv64 == state >> 21 && ExtractBits(state, 27) < 1 << 27
  {
  }

  /** `nextDouble`'s numerator `v1 + v2`, with `v1 = (int64)a << 27` and `v2 = (int64)b`. */
  function Numerator(a: bv32, b: bv32): (r: bv64)
    requires a < 1 << 26 && b < 1 << 27
    ensures r < Denominator
  {
    ((a as bv64) << 27) + b as bv64
  }

  /** The numerator keeps both draws apart: `a` in the high bits, `b` in the low 27. */
  lemma NumeratorSplits(a: bv32, b: bv32)
    requires a < 1 << 26 && b < 1 << 27
    ensures Numerator(a, b) >> 27 == a as bv64
    ensures Numerator(a, b) & 0x7FF_FFFF == b as bv64
  {
  }

  /** A numerator below 2^53 is below 2^53 as a number too. */
  lemma NumeratorBound(numerator: bv64)
    requires numerator < 0x20_0000_0000_0000
    ensures 0 <= numerator as int < 0x20_0000_0000_0000
  {
    var narrow: bv53 := numerator as bv53;
    assert narrow as bv64 == numerator;
    assert (narrow as bv64) as int == narrow as int;
  }

  /**
   * `nextDouble`'s quotient. The numerator is below 2^53, so converting it to a double is exact,
   * and dividing by a power of two is exact too: the double returned is this fraction.
   */
  function Fraction(numerator: bv64): (r: real)
    requires numerator < Denominator
    ensures 0.0 <= r < 1.0
  {
    var n := numerator as int;
    NumeratorBound(numerator);
    FractionBounds(n);
    n as real / 0x20_0000_0000_0000 as real
  }

  lemma FractionBounds(n: int)
    requires 0 <= n < 0x20_0000_0000_0000
    ensures 0.0 <= n as real / 0x20_0000_0000_0000 as real < 1.0
  {
  }

  /** `nextDoubleRange`: stretch a fraction of [0, 1) over [low, high). */
  function Stretch(fraction: real, low: real, high: real): (r: real)
    requires 0.0 <= fraction < 1.0
    ensures low <= high ==> low <= r <= high
    ensures low < high ==> r < high
    ensures fraction == 0.0 ==> r == low
  {
    StretchBounds(fraction, low, high);
    (high - low) * fraction + low
  }

  lemma StretchBounds(fraction: real, low: real, high: real)
    requires 0.0 <= fraction < 1.0
    ensures low <= high ==> low <= (high - low) * fraction + low <= high
    ensures low < high ==> (high - low) * fraction + low < high
  {
    var width, rest := high - low, 1.0 - fraction;
    assert (high - low) * fraction + low == high - width * rest;
    if low <= high {
      ProductSign(width, fraction);
      ProductSign(width, rest);
    }
  }

  /** The sign of a product of two non-negative numbers. */
  lemma ProductSign(x: real, y: real)
    requires x >= 0.0 && y >= 0.0
    ensures x * y >= 0.0
    ensures x > 0.0 && y > 0.0 ==> x * y > 0.0
  {
  }

  /** The numerator `nextDouble` builds from a state: 26 bits of the next state, then 27 of the one after. */
  function NumeratorAt(state: bv64): (r: bv64)
    ensures r < Denominator
  {
    var first := NextSeed(state);
    var second := NextSeed(first);
    FirstDraw(first);
    SecondDraw(second);
    Numerator(ExtractBits(first, 26), ExtractBits(second, 27))
  }

  /** What `nextDouble` returns from a state. */
  function DoubleAt(state: bv64): (r: real)
    ensures 0.0 <= r < 1.0
  {
    Fraction(NumeratorAt(state))
  }

  /** Two draws from in-range states, combined as `nextDouble` does. */
  lemma DrawsCombine(first: bv64, second: bv64)
    requires InRange(first) && InRange(second)
    ensures Numerator(ExtractBits(first, 26), ExtractBits(second, 27)) == (first >> 22 << 27) + (second >> 21)
  {
    FirstDraw(first);
    SecondDraw(second);
    var a, b := ExtractBits(first, 26), ExtractBits(second, 27);
    assert a as bv64 == first >> 22 && b as bv64 == second >> 21;
  }

  /**
   * The numerator behind `DoubleAt` is the top 26 bits of the first new state followed by the
   * top 27 bits of the second: 53 bits of state.
   */
  lemma NumeratorAtBits(state: bv64)
    ensures NumeratorAt(state) == (NextSeed(state) >> 22 << 27) + (NextSeed(NextSeed(state)) >> 21)
  {
    DrawsCombine(NextSeed(state), NextSeed(NextSeed(state)));
  }

  /** A generator: the struct `Random` with its one field. */
  class Generator {
    var seed: bv64

    /** `initSeed`. */
    constructor (seed: bv64)
      ensures this.seed == InitialSeed(seed)
    {
      this.seed := InitialSeed(seed);
    }

    /** `nextBits`: advance the state once and return the top `bits` bits of the new state. */
    method NextBits(bits: bv32) returns (r: bv32)
      requires bits <= 47
      modifies this
      ensures seed == NextSeed(old(seed))
      ensures r == ExtractBits(seed, bits)
    {
      var nextSeed := NextSeed(seed);
      seed := nextSeed;
      seed := nextSeed;
      r := ExtractBits(nextSeed, bits);
    }

    /** `nextDouble`: advance the state twice and return the fraction those two states give. */
    method NextDouble() returns (d: real)
      modifies this
      ensures seed == NextSeed(NextSeed(old(seed)))
      ensures d == DoubleAt(old(seed))
    {
      ghost var start := seed;
      var a := NextBits(26);
      ghost var first := seed;
      FirstDraw(first);
      var b := NextBits(27);
      ghost var second := seed;
      SecondDraw(second);
      var numerator := Numerator(a, b);
      assert numerator == NumeratorAt(start);
      d := Fraction(numerator);
    }

    /** `nextDoubleRange`: one `nextDouble` stretched over [low, high). */
    method NextDoubleRange(low: real, high: real) returns (r: real)
      modifies this
      ensures seed == NextSeed(NextSeed(old(seed)))
      ensures r == Stretch(DoubleAt(old(seed)), low, high)
      ensures low < high ==> low <= r < high
    {
      var d := NextDouble();
      r := Stretch(d, low, high);
    }
  }
}
