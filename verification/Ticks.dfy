// Unsigned 32-bit tick arithmetic (OS_TICK is CPU_INT32U, os_type.h:88).

module Ticks {

  const MODULUS := 0x1_0000_0000

  type Tick = x: int | 0 <= x < 0x1_0000_0000

  // a + b as the C expression on OS_TICK computes it.
  function Plus(a: Tick, b: Tick): (r: Tick)
    ensures r == (a + b) % MODULUS
  {
    if a + b < MODULUS then a + b else a + b - MODULUS
  }

  // a - b as the C expression on OS_TICK computes it.
  function Minus(a: Tick, b: Tick): (r: Tick)
    ensures r == (a - b) % MODULUS
  {
    if a >= b then a - b else a - b + MODULUS
  }

  // The spoke of a wheel of `size` spokes that a counter value hashes to.
  function SpokeOf(t: Tick, size: nat): (k: nat)
    requires size > 0
    ensures k < size
  {
    t % size
  }
}
