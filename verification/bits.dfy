/** Integer widths and binary levels shared by the scanner model. */
module Bits {

  /** Modulus of unsigned 32-bit arithmetic (the width of `millis()` on Arduino). */
  const U32_MODULUS: int := 0x1_0000_0000

  /** An unsigned 8-bit value: the width of the scanner's template parameters. */
  type u8 = x: int | 0 <= x < 0x100

  /** An unsigned 32-bit value: timestamps and switch indices. */
  type u32 = x: int | 0 <= x < 0x1_0000_0000

  /** A digital level as read from or written to a pin. */
  type Bit = x: int | 0 <= x < 2

  const LOW: Bit := 0
  const HIGH: Bit := 1

  /** Logical negation of a level, as C++ `!` applied to a 0/1 value. */
  function Invert(b: Bit): (r: Bit)
    ensures r != b
  {
    1 - b
  }

  /** `now - start` computed in unsigned 32-bit arithmetic, so it wraps
      around when the millisecond counter has overflowed since `start`.
      The result is the unique 32-bit distance that leads from `start` to `now`. */
  function Elapsed(now: u32, start: u32): (d: u32)
    ensures (start + d) % U32_MODULUS == now
  {
    (now - start) % U32_MODULUS
  }

  /** The distance `Elapsed` returns is the only one that leads from `start`
      to `now` modulo 2^32, and it is the plain difference exactly when the
      counter has not wrapped. */
  lemma ElapsedIsUnique(now: u32, start: u32, d: u32)
    requires (start + d) % U32_MODULUS == now
    ensures d == Elapsed(now, start)
    ensures start <= now ==> d == now - start
    ensures now < start ==> d == now + U32_MODULUS - start
  {
    var e := Elapsed(now, start);
    assert (start + e) % U32_MODULUS == now;
    if start + d < U32_MODULUS {
      assert start + d == now;
    } else {
      assert start + d - U32_MODULUS == now;
    }
  }
}
