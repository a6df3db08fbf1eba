/** Unsigned machine integers used across the model: bytes, the moduli of
    32- and 64-bit wrap-around arithmetic, and the minimum of two sizes. */
module Bytes {
  type Byte = b: int | 0 <= b < 256

  const U32Modulus: nat := 0x1_0000_0000
  const U64Modulus: nat := 0x1_0000_0000_0000_0000

  type UInt32 = x: int | 0 <= x < U32Modulus

  function Min(a: nat, b: nat): nat
  {
    if a <= b then a else b
  }
}
