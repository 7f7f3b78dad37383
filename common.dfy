/** Shared vocabulary: optional values and the C fixed-width integer helpers
  * the firmware's arithmetic relies on. */
module Common {

  datatype Option<T> = None | Some(value: T)

  type byte = x: int | 0 <= x < 0x100
  type u16 = x: int | 0 <= x < 0x1_0000
  type u32 = x: int | 0 <= x < 0x1_0000_0000

  /** Bitwise AND, OR and XOR of two non-negative integers below 2^32. */
  function And(a: u32, b: u32): u32
  {
    ((a as bv32) & (b as bv32)) as int
  }

  function Or(a: u32, b: u32): u32
  {
    ((a as bv32) | (b as bv32)) as int
  }

  function Xor(a: u32, b: u32): u32
  {
    ((a as bv32) ^ (b as bv32)) as int
  }

  /** Bit `k` (0 = least significant) of `x`. */
  function Bit(x: nat, k: nat): (r: bool)
  {
    (x / Pow2(k)) % 2 == 1
  }

  function Pow2(k: nat): (r: nat)
    ensures r >= 1
  {
    if k == 0 then 1 else 2 * Pow2(k - 1)
  }

  /** C's `/` on signed integers: the quotient is truncated toward zero. */
  function TruncDiv(a: int, b: int): (q: int)
    requires b != 0
    ensures b > 0 && a >= 0 ==> q == a / b
    ensures b > 0 && a < 0 ==> q == -((-a) / b)
  {
    if (a >= 0) == (b > 0) then
      (if a >= 0 then a / b else (-a) / (-b))
    else
      -((if a >= 0 then a else -a) / (if b > 0 then b else -b))
  }

  /** The conversion of an integer to C's `int32_t`: two's-complement wrap. */
  function Int32(x: int): (r: int)
    ensures -0x8000_0000 <= r < 0x8000_0000
    ensures (r - x) % 0x1_0000_0000 == 0
  {
    var m := x % 0x1_0000_0000;
    if m < 0x8000_0000 then m else m - 0x1_0000_0000
  }

  /** The conversion of an integer to `uint8_t`/`uint16_t`/`uint32_t`. */
  function U8(x: int): byte { x % 0x100 }
  function U16(x: int): u16 { x % 0x1_0000 }
  function U32(x: int): u32 { x % 0x1_0000_0000 }
}
