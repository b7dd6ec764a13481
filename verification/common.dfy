/**
 * Small shared vocabulary: an optional value and the unsigned 32-bit integer
 * the driver uses for counters, seeds and sizes (C `ULONG` used arithmetically).
 */
module Common {

  /** A value that may be absent (a NULL pointer, a failed allocation). */
  datatype Option<T> = None | Some(value: T)

  const TWO_TO_32: int := 0x1_0000_0000

  /** An unsigned 32-bit quantity held as an integer. */
  type u32 = x: int | 0 <= x < 0x1_0000_0000

  /** C's `x++` on a ULONG: wraps to 0 after 0xFFFF_FFFF. */
  function Inc32(x: u32): (r: u32)
    ensures x < TWO_TO_32 - 1 ==> r == x + 1
    ensures x == TWO_TO_32 - 1 ==> r == 0
  {
    (x + 1) % TWO_TO_32
  }

  /** Big-endian bytes of a 32-bit word, most significant first. */
  function BigEndian32(w: bv32): (b: seq<bv8>)
    ensures |b| == 4
    ensures FromBigEndian32(b) == w
  {
    [((w >> 24) & 0xFF) as bv8, ((w >> 16) & 0xFF) as bv8,
     ((w >> 8) & 0xFF) as bv8, (w & 0xFF) as bv8]
  }

  /** Reassembles a big-endian 32-bit word. */
  function FromBigEndian32(b: seq<bv8>): bv32
    requires |b| == 4
  {
    ((b[0] as bv32) << 24) | ((b[1] as bv32) << 16) | ((b[2] as bv32) << 8) | (b[3] as bv32)
  }

  /** Every four bytes are the big-endian encoding of the word they assemble to. */
  lemma BigEndianOnto(b: seq<bv8>)
    requires |b| == 4
    ensures BigEndian32(FromBigEndian32(b)) == b
  {
    var w := FromBigEndian32(b);
    ByteOfWord(b[0], b[1], b[2], b[3]);
    assert BigEndian32(w)[0] == b[0];
  }

  lemma ByteOfWord(b0: bv8, b1: bv8, b2: bv8, b3: bv8)
    ensures var w := ((b0 as bv32) << 24) | ((b1 as bv32) << 16) | ((b2 as bv32) << 8) | (b3 as bv32);
      ((w >> 24) & 0xFF) as bv8 == b0 && ((w >> 16) & 0xFF) as bv8 == b1
      && ((w >> 8) & 0xFF) as bv8 == b2 && (w & 0xFF) as bv8 == b3
  {
  }
}
