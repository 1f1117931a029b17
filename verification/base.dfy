/**
 Small shared vocabulary: an optional value, the unsigned byte range every
 counter of the game lives in, and the saturating arithmetic the engine uses
 on those bytes.
 */
module Base {

  /** The conventional Some/None wrapper. */
  datatype Option<+T> = None | Some(value: T) {

    /** The wrapped value, or `default` when there is none. */
    function GetOr(default: T): T {
      match this
      case Some(v) => v
      case None => default
    }
  }

  const U8_MAX: int := 255

  /** An unsigned 8-bit value; arithmetic that leaves this range is an overflow. */
  type U8 = x: int | 0 <= x <= U8_MAX

  function Min(a: int, b: int): int { if a <= b then a else b }

  function Max(a: int, b: int): int { if a >= b then a else b }

  /** Byte addition that sticks at the top of the range instead of wrapping. */
  function SaturatingAdd(a: U8, b: U8): (r: U8)
    ensures r == Min(a + b, U8_MAX)
    ensures r >= a && r >= b
  {
    if a + b > U8_MAX then U8_MAX else a + b
  }

  /** Byte subtraction that sticks at zero instead of wrapping. */
  function SaturatingSub(a: U8, b: U8): (r: U8)
    ensures r == Max(a - b, 0)
    ensures r <= a
  {
    if a >= b then a - b else 0
  }
}
