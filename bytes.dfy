/**
 * Bytes and register words as the LT8722 protocol sees them.
 *
 * Every register of the LT8722 is exchanged as four bytes, most significant
 * first; bit positions count from the least significant bit of the last
 * byte. The status bytes of a transaction and a frame header are pairs.
 */
module Bytes {

  /** Two bytes: the status field of a transaction result, or a frame header. */
  type Pair = s: seq<bv8> | |s| == 2 witness [0, 0]

  /** A register word: four bytes, the most significant first. */
  type Word = s: seq<bv8> | |s| == 4 witness [0, 0, 0, 0]

  const ZERO_WORD: Word := [0x00, 0x00, 0x00, 0x00]

  /** Bit `o` of byte `b`, bit 0 being the least significant one. */
  predicate ByteBit(b: bv8, o: nat)
    requires o < 8
  {
    (b >> o) & 1 == 1
  }

  /** The byte of a register word that holds bit `p`: byte `3 - p / 8`, as the bitfield mutator computes it. */
  function ByteIndex(p: nat): (k: int)
    requires p < 32
    ensures 0 <= k < 4
  {
    3 - p / 8
  }

  /** Bit `p` of a register word: bit `p % 8` of byte `3 - p / 8`. */
  predicate WordBit(w: Word, p: nat)
    requires p < 32
  {
    ByteBit(w[ByteIndex(p)], p % 8)
  }

  /** The byte update of the bitfield mutator: `b | (1 << o)` to set bit `o`, `b & ~(1 << o)` to clear it. */
  function SetByteBit(b: bv8, o: nat, on: bool): bv8
    requires o < 8
  {
    if on then b | (1 << o) else b & !(1 << o)
  }

  /** Setting or clearing bit `o` gives bit `o` the new value and leaves the other seven bits alone. */
  lemma SetByteBitSpec(b: bv8, o: nat, on: bool, o': nat)
    requires o < 8 && o' < 8
    ensures ByteBit(SetByteBit(b, o, on), o') == if o' == o then on else ByteBit(b, o')
  {
    if o' == 0 {
    } else if o' == 1 {
    } else if o' == 2 {
    } else if o' == 3 {
    } else if o' == 4 {
    } else if o' == 5 {
    } else if o' == 6 {
    } else {
    }
  }

  /** A byte is determined by its eight bits. */
  lemma ByteBitsDetermine(a: bv8, b: bv8)
    requires forall o: nat :: o < 8 ==> ByteBit(a, o) == ByteBit(b, o)
    ensures a == b
  {
    assert ByteBit(a, 0) == ByteBit(b, 0) && ByteBit(a, 1) == ByteBit(b, 1);
    assert ByteBit(a, 2) == ByteBit(b, 2) && ByteBit(a, 3) == ByteBit(b, 3);
    assert ByteBit(a, 4) == ByteBit(b, 4) && ByteBit(a, 5) == ByteBit(b, 5);
    assert ByteBit(a, 6) == ByteBit(b, 6) && ByteBit(a, 7) == ByteBit(b, 7);
  }

  /** A register word is determined by its 32 bits. */
  lemma WordBitsDetermine(v: Word, w: Word)
    requires forall p: nat :: p < 32 ==> WordBit(v, p) == WordBit(w, p)
    ensures v == w
  {
    forall k | 0 <= k < 4
      ensures v[k] == w[k]
    {
      forall o: nat | o < 8
        ensures ByteBit(v[k], o) == ByteBit(w[k], o)
      {
        var p := (3 - k) * 8 + o;
        assert ByteIndex(p) == k && p % 8 == o;
        assert WordBit(v, p) == WordBit(w, p);
      }
      ByteBitsDetermine(v[k], w[k]);
    }
  }

  /**
   * The word's value as an unsigned 32-bit integer, first byte most
   * significant: `d[0] << 24 | d[1] << 16 | d[2] << 8 | d[3]`.
   */
  function Pack(w: Word): (x: bv32)
    ensures (x >> 24) as bv8 == w[0] && ((x >> 16) & 0xFF) as bv8 == w[1]
    ensures ((x >> 8) & 0xFF) as bv8 == w[2] && (x & 0xFF) as bv8 == w[3]
  {
    (w[0] as bv32 << 24) | (w[1] as bv32 << 16) | (w[2] as bv32 << 8) | w[3] as bv32
  }

  /** The four bytes of `x`, most significant first: byte `3 - i` is `x >> 8i` truncated to eight bits. */
  function BigEndianBytes(x: bv32): (w: Word)
    ensures Pack(w) == x
  {
    [(x >> 24) as bv8, ((x >> 16) & 0xFF) as bv8, ((x >> 8) & 0xFF) as bv8, (x & 0xFF) as bv8]
  }

  /** Packing and splitting are inverse: no word is lost by reading it as a number. */
  lemma BigEndianBytesOfPack(w: Word)
    ensures BigEndianBytes(Pack(w)) == w
  {
  }

  /** The bit numbering of `WordBit` is that of the packed 32-bit value. */
  lemma WordBitOfPack(w: Word, p: nat)
    requires p < 32
    ensures WordBit(w, p) == ((Pack(w) >> p) & 1 == 1)
  {
    if p < 8 {
    } else if p < 16 {
    } else if p < 24 {
    } else {
    }
  }
}
