/**
 * The Java value types the core uses: `int` (32-bit two's complement),
 * `double` (carried as its IEEE 754 bit pattern) and `java.time.LocalDateTime`.
 */
module JavaTypes {

  const TWO_32: int := 0x1_0000_0000

  /** A Java `int`. */
  type int32 = x: int | -0x8000_0000 <= x < 0x8000_0000

  /** The Java narrowing of an integer to `int`: keep the low 32 bits, read them as signed. */
  function Wrap32(x: int): (r: int32)
    ensures (r - x) % TWO_32 == 0
    ensures -0x8000_0000 <= x < 0x8000_0000 ==> r == x
  {
    var low := x % TWO_32;
    if low < 0x8000_0000 then low else low - TWO_32
  }

  /** The unsigned reading of the 32 bits of an `int` (what `>>>` sees). */
  function Unsigned32(x: int32): (r: nat)
    ensures r < TWO_32
    ensures Wrap32(r) == x
  {
    if x < 0 then x + TWO_32 else x
  }

  /** The 64 bits of a Java `long` or `double`, read as an unsigned number. */
  type Bits64 = x: int | 0 <= x < 0x1_0000_0000_0000_0000

  /** A Java `double`, carried as its IEEE 754 binary64 bit pattern; the model never computes with it. */
  datatype Double = Double(bits: Bits64)

  /** The default value of a `double` field, `0.0`. */
  const ZERO_DOUBLE: Double := Double(0)

  const NANOS_PER_MINUTE: int := 60_000_000_000

  /**
   * A `java.time.LocalDateTime`, as a count of nanoseconds on the local time line
   * from an arbitrary origin: the model only needs differences between instants.
   */
  datatype LocalDateTime = LocalDateTime(nanos: int)

  /** `LocalDateTime.minusMinutes(minutes)`: the instant `minutes` whole minutes earlier. */
  function MinusMinutes(t: LocalDateTime, minutes: int): (r: LocalDateTime)
    ensures minutes > 0 ==> r.nanos < t.nanos
    ensures minutes == 0 ==> r == t
    ensures r.nanos + minutes * NANOS_PER_MINUTE == t.nanos
  {
    LocalDateTime(t.nanos - minutes * NANOS_PER_MINUTE)
  }
}
