/** Machine integer types used by the simulator and the little-endian view of a
    32-bit word as four bytes. Rust's u8, u32 and u64 are modelled as ranges of
    the mathematical integers, so that a value that would leave its range (an
    overflow or an underflow, which panics in a debug build) is a proof
    obligation rather than a silent wrap-around. */
module Bits {

  newtype u8 = x: int | 0 <= x < 0x100
  newtype u32 = x: int | 0 <= x < 0x1_0000_0000
  newtype u64 = x: int | 0 <= x < 0x1_0000_0000_0000_0000

  const U64_LIMIT: int := 0x1_0000_0000_0000_0000

  datatype Option<T> = None | Some(value: T)

  /** Byte lane k of a word, i.e. (w >> (8 * k)) & 0xff. */
  function ByteOf(w: u32, k: nat): u8
    requires k < 4
  {
    var x := w as int;
    (if k == 0 then x % 0x100
     else if k == 1 then x / 0x100 % 0x100
     else if k == 2 then x / 0x1_0000 % 0x100
     else x / 0x100_0000 % 0x100) as u8
  }

  /** Splitting x at a lane boundary: the low part is the remainder and the high
      part the quotient. */
  lemma SplitAt256(lo: int, hi: int)
    requires 0 <= lo < 0x100 && 0 <= hi
    ensures (lo + hi * 0x100) / 0x100 == hi && (lo + hi * 0x100) % 0x100 == lo
  {
  }

  lemma SplitAt65536(lo: int, hi: int)
    requires 0 <= lo < 0x1_0000 && 0 <= hi
    ensures (lo + hi * 0x1_0000) / 0x1_0000 == hi && (lo + hi * 0x1_0000) % 0x1_0000 == lo
  {
  }

  lemma SplitAt16M(lo: int, hi: int)
    requires 0 <= lo < 0x100_0000 && 0 <= hi
    ensures (lo + hi * 0x100_0000) / 0x100_0000 == hi && (lo + hi * 0x100_0000) % 0x100_0000 == lo
  {
  }

  /** The word assembled from four bytes in little-endian order: the byte at
      the lowest address is the least significant one. The source adds the
      shifted bytes; as they occupy disjoint bit lanes the sum equals their
      bitwise or and never overflows 32 bits. */
  function LittleEndian(b: seq<u8>): u32
    requires |b| == 4
  {
    (b[0] as int + b[1] as int * 0x100 + b[2] as int * 0x1_0000 + b[3] as int * 0x100_0000) as u32
  }

  /** Each byte can be read back from its lane of the assembled word. */
  lemma {:induction false} LanesOfLittleEndian(b: seq<u8>)
    requires |b| == 4
    ensures ByteOf(LittleEndian(b), 0) == b[0] && ByteOf(LittleEndian(b), 1) == b[1]
    ensures ByteOf(LittleEndian(b), 2) == b[2] && ByteOf(LittleEndian(b), 3) == b[3]
  {
    var b0, b1, b2, b3 := b[0] as int, b[1] as int, b[2] as int, b[3] as int;
    SplitAt256(b0, b1 + b2 * 0x100 + b3 * 0x1_0000);
    SplitAt256(b1, b2 + b3 * 0x100);
    SplitAt65536(b0 + b1 * 0x100, b2 + b3 * 0x100);
    SplitAt256(b2, b3);
    SplitAt16M(b0 + b1 * 0x100 + b2 * 0x1_0000, b3);
  }

  /** The four byte lanes of a word, lowest first. */
  function Lanes(w: u32): (b: seq<u8>)
    ensures |b| == 4
  {
    [ByteOf(w, 0), ByteOf(w, 1), ByteOf(w, 2), ByteOf(w, 3)]
  }

  /** The converse round trip: every word is the little-endian composition of
      its own four byte lanes, so LittleEndian is a bijection onto u32. */
  lemma {:induction false} WordOfBytes(w: u32)
    ensures LittleEndian(Lanes(w)) == w
  {
    var x := w as int;
    var r0, q1 := x % 0x100, x / 0x100;
    var r1, q2 := q1 % 0x100, q1 / 0x100;
    var r2, r3 := q2 % 0x100, q2 / 0x100;
    assert x == r0 + q1 * 0x100;
    assert q1 == r1 + q2 * 0x100;
    assert q2 == r2 + r3 * 0x100;
    assert x == (r0 + r1 * 0x100 + r2 * 0x1_0000) + r3 * 0x100_0000;
    assert ByteOf(w, 0) as int == r0 && ByteOf(w, 1) as int == r1;
    SplitAt65536(r0 + r1 * 0x100, q2);
    SplitAt16M(r0 + r1 * 0x100 + r2 * 0x1_0000, r3);
    assert ByteOf(w, 2) as int == r2 && ByteOf(w, 3) as int == r3;
  }
}
