/**
 * `java.util.Random` as the JDK documents it: a 48-bit linear congruential
 * generator. Only what a freshly seeded generator returns on its first call
 * is needed: `new Random(seed).nextInt()` and `new Random(seed).nextDouble()`.
 */
module JavaRandom {
  import opened Wrappers
  import opened JavaTypes

  const MULTIPLIER: int := 0x5_DEEC_E66D
  const ADDEND: int := 0xB
  const TWO_48: int := 0x1_0000_0000_0000
  const TWO_52: int := 0x10_0000_0000_0000
  const TWO_53: int := 0x20_0000_0000_0000

  /** The bit pattern of the `double` 1.0. */
  const ONE_BITS: int := 0x3FF0_0000_0000_0000

  type Seed48 = s: int | 0 <= s < 0x1_0000_0000_0000

  /** `new Random(seed)`: the state is `(seed ^ MULTIPLIER) & ((1 << 48) - 1)`, the seed sign-extended to 64 bits. */
  function InitialScramble(seed: int32): Seed48 {
    Pow2Of48();
    Xor(seed % TWO_48, MULTIPLIER, 48)
  }

  /** The bitwise exclusive or of the low `n` bits of `a` and `b`. */
  function Xor(a: nat, b: nat, n: nat): (r: nat)
    ensures r < Pow2(n)
  {
    if n == 0 then 0 else (a + b) % 2 + 2 * Xor(a / 2, b / 2, n - 1)
  }

  /** One step of the generator: `(state * MULTIPLIER + ADDEND) & ((1 << 48) - 1)`. */
  function Step(s: Seed48): Seed48 {
    (s * MULTIPLIER + ADDEND) % TWO_48
  }

  /** `new Random(seed).nextInt()`: `next(32)`, the top 32 bits of the stepped state read as an `int`. */
  function NextInt(seed: int32): (r: int32)
    ensures Unsigned32(r) == Step(InitialScramble(seed)) / 0x1_0000
  {
    Next32(Step(InitialScramble(seed)))
  }

  /** `next(32)` on a stepped state: its top 32 bits, read as an `int`. */
  function Next32(s: Seed48): (r: int32)
    ensures Unsigned32(r) == s / 0x1_0000
  {
    Wrap32(s / 0x1_0000)
  }

  /**
   * The 53-bit numerator `k` of `new Random(seed).nextDouble()`, whose value is `k / 2^53`:
   * `(next(26) << 27) + next(27)`, from two consecutive steps.
   */
  function NextDoubleNumerator(seed: int32): (k: nat)
    ensures k < TWO_53
  {
    var s1 := Step(InitialScramble(seed));
    var s2 := Step(s1);
    var hi, lo := s1 / 0x40_0000, s2 / 0x20_0000;
    HighBits(s1, s2);
    hi * 0x800_0000 + lo
  }

  /** The ranges of `next(26)` and `next(27)`, and how they pack into 53 bits. */
  lemma HighBits(s1: Seed48, s2: Seed48)
    ensures 0 <= s1 / 0x40_0000 < 0x400_0000
    ensures 0 <= s2 / 0x20_0000 < 0x800_0000
    ensures (s1 / 0x40_0000) * 0x800_0000 + s2 / 0x20_0000 < TWO_53
    ensures ((s1 / 0x40_0000) * 0x800_0000 + s2 / 0x20_0000) / 0x800_0000 == s1 / 0x40_0000
  {
  }

  /** `new Random(seed).nextDouble()`: the `double` `k * 2^-53`. */
  function NextDouble(seed: int32): (d: Double)
    ensures d.bits < ONE_BITS
  {
    UnitDouble(NextDoubleNumerator(seed))
  }

  /**
   * Two generators seeded alike start alike: the first 26 bits of the fraction
   * of `nextDouble()` are the high 26 bits of the 32 that `nextInt()` returns.
   */
  lemma SameSeedSharesBits(seed: int32)
    ensures NextDoubleNumerator(seed) / 0x800_0000 == Unsigned32(NextInt(seed)) / 64
  {
    var s1 := Step(InitialScramble(seed));
    HighBits(s1, Step(s1));
    TopHalf(s1);
  }

  /** `next(32)` read back as unsigned is the top 32 bits of the state, whose top 26 are `next(26)`. */
  lemma TopHalf(s1: Seed48)
    ensures Unsigned32(Wrap32(s1 / 0x1_0000)) == s1 / 0x1_0000
    ensures (s1 / 0x1_0000) / 64 == s1 / 0x40_0000
  {
  }

  function Pow2(n: nat): (r: nat)
    ensures r >= 1
  {
    if n == 0 then 1 else 2 * Pow2(n - 1)
  }

  lemma {:induction false} Pow2Monotonic(a: nat, b: nat)
    requires a <= b
    ensures Pow2(a) <= Pow2(b)
    decreases b
  {
    if a < b {
      Pow2Monotonic(a, b - 1);
    }
  }

  lemma Pow2Of48()
    ensures Pow2(48) == TWO_48
  {
    assert Pow2(8) == 256;
    Pow2Add(8, 8);
    Pow2Add(16, 16);
    Pow2Add(32, 16);
  }

  lemma Pow2Of53()
    ensures Pow2(53) == TWO_53
  {
    assert Pow2(10) == 1024;
    Pow2Add(10, 10);
    Pow2Add(20, 20);
    Pow2Add(40, 10);
    Pow2Add(50, 3);
  }

  lemma {:induction false} Pow2Add(a: nat, b: nat)
    ensures Pow2(a + b) == Pow2(a) * Pow2(b)
    decreases a
  {
    if a > 0 {
      Pow2Add(a - 1, b);
    }
  }

  /** `x << n`. */
  function ShiftLeft(x: nat, n: nat): nat {
    if n == 0 then x else 2 * ShiftLeft(x, n - 1)
  }

  /** `x >>> n`. */
  function ShiftRight(x: nat, n: nat): nat {
    if n == 0 then x else ShiftRight(x / 2, n - 1)
  }

  lemma {:induction false} ShiftLeftDouble(x: nat, n: nat)
    ensures ShiftLeft(2 * x, n) == ShiftLeft(x, n + 1)
    decreases n
  {
    if n > 0 {
      ShiftLeftDouble(x, n - 1);
    }
  }

  lemma {:induction false} ShiftRightLeft(x: nat, n: nat)
    ensures ShiftRight(ShiftLeft(x, n), n) == x
    decreases n
  {
    if n > 0 {
      assert ShiftLeft(x, n) / 2 == ShiftLeft(x, n - 1);
      ShiftRightLeft(x, n - 1);
    }
  }

  /**
   * Doubles `x` until it reaches `[2^52, 2^53)`: the normalised significand of
   * `x * 2^-53`, and the total number of doublings `sh`.
   */
  function Normalise(x: nat, sh: nat): (r: (nat, nat))
    requires 0 < x < TWO_53 && x >= Pow2(sh)
    ensures sh <= r.0 <= 52
    ensures TWO_52 <= r.1 < TWO_53 && r.1 == ShiftLeft(x, r.0 - sh)
    decreases TWO_53 - x
  {
    if x >= TWO_52 then
      assert sh <= 52 by {
        if sh > 52 {
          Pow2Monotonic(53, sh);
          Pow2Of53();
        }
      }
      (sh, x)
    else
      var r := Normalise(2 * x, sh + 1);
      ShiftLeftDouble(x, r.0 - sh - 1);
      r
  }

  /** The IEEE 754 binary64 encoding of the exact value `k * 2^-53`. */
  function UnitDouble(k: nat): (d: Double)
    requires k < TWO_53
    ensures d.bits < ONE_BITS
  {
    if k == 0 then ZERO_DOUBLE
    else
      var (sh, m) := Normalise(k, 0);
      Double(Encode(1022 - sh, m - TWO_52))
  }

  /** The bits of a positive normal `double` with biased exponent `e` and fraction field `f`. */
  function Encode(e: nat, f: nat): (x: nat)
    requires 970 <= e <= 1022 && f < TWO_52
    ensures x < ONE_BITS && x / TWO_52 == e && x % TWO_52 == f
  {
    e * TWO_52 + f
  }

  /** The numerator `k` of a `double` equal to `k * 2^-53`, if it is one that `UnitDouble` produces. */
  function UnitNumerator(d: Double): Option<nat> {
    var x := d.bits;
    var e := x / TWO_52;
    if x == 0 then Some(0)
    else if 970 <= e <= 1022 then Some(ShiftRight(x % TWO_52 + TWO_52, 1022 - e))
    else None
  }

  /** The encoding loses nothing: every numerator below `2^53` is read back. */
  lemma UnitDoubleRoundTrip(k: nat)
    requires k < TWO_53
    ensures UnitNumerator(UnitDouble(k)) == Some(k)
  {
    if k > 0 {
      var (sh, m) := Normalise(k, 0);
      var x := Encode(1022 - sh, m - TWO_52);
      assert UnitDouble(k).bits == x;
      ShiftRightLeft(k, sh);
    }
  }
}
