/** Machine integers: 64-bit counts with checked arithmetic, path bytes, and the process clock. */
module Machine {
  import opened Wrappers

  const SIZE_LIMIT: int := 0x1_0000_0000_0000_0000
  type Size = x: int | 0 <= x < SIZE_LIMIT

  type Byte = x: int | 0 <= x < 256

  const SLASH: Byte := 47
  const DOT: Byte := 46

  function CheckedAdd(a: Size, b: Size): Option<Size> {
    if a + b < SIZE_LIMIT then Some(a + b) else None
  }

  function CheckedMul(a: Size, b: Size): Option<Size> {
    if 0 <= a * b < SIZE_LIMIT then Some(a * b) else None
  }

  /** One monotonic clock; a reading is never earlier than the reading before it. */
  class Clock {
    var now: nat

    constructor ()
    {
      now := 0;
    }

    method Read() returns (t: nat)
      modifies this
      ensures t == now >= old(now)
    {
      var later: nat :| later >= now;
      now := later;
      t := later;
    }
  }
}
