/** Machine words: bytes and 32-bit numbers, shifts and bitwise or. Everything that relates their bits to
    the numbers they stand for is here. */
module Bits {
  lemma Doubled(b: bv8)
    requires b as nat < 128
    ensures (b << 1) as nat == 2 * b as nat && ((b << 1) | 1) as nat == 2 * b as nat + 1
  {
  }

  /** The byte with the bits of a number. */
  function ByteOf(n: nat): (b: bv8)
    requires n < 256
    ensures b as nat == n
  {
    if n == 0 then 0
    else
      var half := ByteOf(n / 2);
      Doubled(half);
      if n % 2 == 0 then half << 1 else (half << 1) | 1
  }

  lemma ShiftedBits(v: bv32, b: bv8)
    requires v as nat < 0x100_0000
    ensures ((v << 8) | (b as bv32)) as nat == v as nat * 256 + b as nat
  {
  }

  /** `(v << 8) | n`: while nothing is shifted out, the byte falls into the bits the shift leaves empty. */
  function ShiftIn(v: bv32, n: nat): (r: bv32)
    requires n < 256
    ensures v as nat < 0x100_0000 ==> r as nat == v as nat * 256 + n
  {
    if v as nat < 0x100_0000 then
      ShiftedBits(v, ByteOf(n));
      (v << 8) | (ByteOf(n) as bv32)
    else (v << 8) | (ByteOf(n) as bv32)
  }

  lemma HeadBits(major: bv8, low: bv8)
    requires major as nat < 8 && low as nat < 32
    ensures ((major << 5) | low) as nat == major as nat * 32 + low as nat
  {
  }

  /** `(major << 5) | low` of an initial byte: the low bits fall beside the major type. */
  function InitialByte(major: nat, low: nat): (b: nat)
    requires major < 8 && low < 32
    ensures b == major * 32 + low && b < 256
  {
    HeadBits(ByteOf(major), ByteOf(low));
    ((ByteOf(major) << 5) | ByteOf(low)) as nat
  }
}
