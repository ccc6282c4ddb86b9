/** Bytes as written to the peripheral (the elements of a Uint8Array). */
module Bytes {

  newtype byte = x: int | 0 <= x < 256

  /** `n & 0xff` (and `n & 255`) on an integral JavaScript number: the operand is
      first reduced to 32 bits, and 256 divides 2^32, so the result is the
      Euclidean remainder of n by 256 for every integer n. */
  function LowByte(n: int): (b: byte)
    ensures 0 <= n < 256 ==> b as int == n
    ensures (b as int - n) % 256 == 0
  {
    (n % 256) as byte
  }
}
