/** Rust's `u32` and `i32` and the `as` casts between them, written out as wrap-around. */
module MachineInts {
  const TWO_TO_24: int := 0x100_0000
  const TWO_TO_31: int := 0x8000_0000
  const TWO_TO_32: int := 0x1_0000_0000

  type Byte = b: int | 0 <= b < 256
  type U32 = n: int | 0 <= n < TWO_TO_32
  type I32 = n: int | -TWO_TO_31 <= n < TWO_TO_31

  /** `x as u32` */
  function AsU32(x: I32): U32 {
    if x < 0 then x + TWO_TO_32 else x
  }

  /** `x as i32` */
  function AsI32(x: U32): I32 {
    if x >= TWO_TO_31 then x - TWO_TO_32 else x
  }

  /** Casting there and back is the identity in both directions. */
  lemma CastRoundTrip(x: I32, y: U32)
    ensures AsI32(AsU32(x)) == x && AsU32(AsI32(y)) == y
  {
  }

  /** A cast changes no bit: the values differ by a multiple of 2^32. */
  lemma CastKeepsBits(x: I32, y: U32)
    ensures (AsU32(x) - x) % TWO_TO_32 == 0 && (AsI32(y) - y) % TWO_TO_32 == 0
  {
  }

  /** The value of three bytes, least significant first (`u32::from_le_bytes([a, b, c, 0])`). */
  function LittleEndian24(bytes: seq<Byte>): (v: U32)
    requires |bytes| == 3
    ensures v < TWO_TO_24
  {
    (bytes[0] as int) + 256 * (bytes[1] as int) + 65536 * (bytes[2] as int)
  }

  /** A 24-bit counter identifies its three bytes. */
  lemma LittleEndian24Injective(a: seq<Byte>, b: seq<Byte>)
    requires |a| == |b| == 3 && LittleEndian24(a) == LittleEndian24(b)
    ensures a == b
  {
    assert a[0] == b[0] && a[1] == b[1] && a[2] == b[2];
  }
}
